/**
 Shift registers in general: message bits are added to the register one at a time, with a
 step after each.  Stated for an arbitrary register type, so that the arguments about whole
 messages use only the few laws named below.
 */
module ShiftRegister {
  /** `push(w, b)` puts bit b below the bits of w. */
  datatype Machine<!R> = Machine(zero: R, step: R -> R, add: (R, R) -> R, absorb: (R, bool) -> R, push: (R, bool) -> R)

  function Iterate<R>(step: R -> R, c: R, n: nat): R { if n == 0 then c else step(Iterate(step, c, n - 1)) }

  /** The register after a sequence of message bits. */
  function Fold<R>(absorb: (R, bool) -> R, c: R, x: seq<bool>): R {
    if x == [] then c else absorb(Fold(absorb, c, x[..|x| - 1]), x[|x| - 1])
  }

  /** A bit sequence as a register value, first bit lowest. */
  function Word<R>(m: Machine<R>, x: seq<bool>): R { if x == [] then m.zero else m.push(Word(m, x[1..]), x[0]) }

  // ----- Laws ------------------------------------------------------------------------------

  ghost predicate Reversible<R(!new)>(m: Machine<R>) {
    && (forall a, b :: m.step(a) == m.step(b) ==> a == b)
    && (forall a, b, bit :: m.absorb(a, bit) == m.absorb(b, bit) ==> a == b)
    && (forall c, a, b :: m.add(c, a) == m.add(c, b) ==> a == b)
    && (forall c :: m.add(c, m.zero) == c)
  }

  /** Below n bits: absorbing a bit and then adding a word is one step after adding the word with the bit pushed. */
  ghost predicate Shifts<R(!new)>(m: Machine<R>, n: nat) {
    forall c, b, y {:trigger m.absorb(c, b), Word(m, y)} ::
      |y| < n ==> m.add(m.absorb(c, b), Word(m, y)) == m.step(m.add(c, m.push(Word(m, y), b)))
  }

  /** Below n bits: pushing loses nothing. */
  ghost predicate Lossless<R(!new)>(m: Machine<R>, n: nat) {
    forall x, y, b, d {:trigger m.push(Word(m, x), b), m.push(Word(m, y), d)} ::
      |x| == |y| < n && m.push(Word(m, x), b) == m.push(Word(m, y), d) ==> Word(m, x) == Word(m, y) && b == d
  }

  // ----- Whole messages --------------------------------------------------------------------

  lemma {:induction false} IterateInjective<R(!new)>(m: Machine<R>, a: R, b: R, n: nat)
    requires Reversible(m) && Iterate(m.step, a, n) == Iterate(m.step, b, n)
    ensures a == b
  {
    if n > 0 { IterateInjective(m, a, b, n - 1); }
  }

  lemma {:induction false} IterateFirst<R>(step: R -> R, c: R, n: nat)
    ensures Iterate(step, step(c), n) == Iterate(step, c, n + 1)
  {
    if n > 0 { IterateFirst(step, c, n - 1); }
  }

  lemma {:induction false} FoldConcat<R>(absorb: (R, bool) -> R, c: R, x: seq<bool>, y: seq<bool>)
    ensures Fold(absorb, c, x + y) == Fold(absorb, Fold(absorb, c, x), y)
  {
    if y == [] {
      assert x + y == x;
    } else {
      FoldConcat(absorb, c, x, y[..|y| - 1]);
      assert (x + y)[..|x + y| - 1] == x + y[..|y| - 1];
    }
  }

  lemma {:induction false} FoldInjective<R(!new)>(m: Machine<R>, c: R, d: R, x: seq<bool>)
    requires Reversible(m) && Fold(m.absorb, c, x) == Fold(m.absorb, d, x)
    ensures c == d
  {
    if x != [] {
      var init, bit := x[..|x| - 1], x[|x| - 1];
      assert m.absorb(Fold(m.absorb, c, init), bit) == m.absorb(Fold(m.absorb, d, init), bit);
      FoldInjective(m, c, d, init);
    }
  }

  /** Up to n message bits act as if they had been added to the register all at once. */
  lemma {:induction false} FoldIsIterate<R(!new)>(m: Machine<R>, n: nat, c: R, x: seq<bool>)
    requires Reversible(m) && Shifts(m, n) && |x| <= n
    ensures Fold(m.absorb, c, x) == Iterate(m.step, m.add(c, Word(m, x)), |x|)
    decreases |x|
  {
    if x != [] {
      var bit, y := x[0], x[1..];
      var c', w := m.absorb(c, bit), Word(m, y);
      assert m.add(c', w) == m.step(m.add(c, m.push(w, bit)));
      assert x == [x[0]] + x[1..];
      FoldConcat(m.absorb, c, [x[0]], x[1..]);
      assert Fold(m.absorb, c, [x[0]]) == c';
      FoldIsIterate(m, n, c', x[1..]);
      IterateFirst(m.step, m.add(c, m.push(w, bit)), |x| - 1);
    }
  }

  lemma {:induction false} WordInjective<R(!new)>(m: Machine<R>, n: nat, x: seq<bool>, y: seq<bool>)
    requires Lossless(m, n) && |x| == |y| <= n && Word(m, x) == Word(m, y)
    ensures x == y
  {
    if x != [] {
      var a, b, x', y' := x[0], y[0], x[1..], y[1..];
      assert m.push(Word(m, x'), a) == m.push(Word(m, y'), b);
      WordInjective(m, n, x[1..], y[1..]);
      assert x == [x[0]] + x[1..] && y == [y[0]] + y[1..];
    }
  }

  /** A property of register values and lengths that every push carries on holds of all words. */
  lemma {:induction false} WordFits<R(!new)>(m: Machine<R>, fits: (R, nat) -> bool, x: seq<bool>)
    requires fits(m.zero, 0) && forall w, b, n: nat :: fits(w, n) ==> fits(m.push(w, b), n + 1)
    ensures fits(Word(m, x), |x|)
  {
    if x != [] {
      var b, y := x[0], x[1..];
      WordFits(m, fits, y);
      assert fits(m.push(Word(m, y), b), |y| + 1);
    }
  }

  lemma WordFour<R>(m: Machine<R>, b0: bool, b1: bool, b2: bool, b3: bool, x: seq<bool>)
    ensures Word(m, [b0, b1, b2, b3] + x) == m.push(m.push(m.push(m.push(Word(m, x), b3), b2), b1), b0)
  {
    var y := [b0, b1, b2, b3] + x;
    assert y[1..][1..][1..][1..] == x;
    assert Word(m, y[1..][1..]) == m.push(m.push(Word(m, x), b3), b2);
  }

  lemma WordEight<R>(m: Machine<R>, b0: bool, b1: bool, b2: bool, b3: bool, b4: bool, b5: bool, b6: bool, b7: bool)
    ensures var w := m.push(m.push(m.push(m.push(m.zero, b7), b6), b5), b4);
      Word(m, [b0, b1, b2, b3, b4, b5, b6, b7]) == m.push(m.push(m.push(m.push(w, b3), b2), b1), b0)
  {
    WordFour(m, b4, b5, b6, b7, []);
    WordFour(m, b0, b1, b2, b3, [b4, b5, b6, b7] + []);
    assert [b0, b1, b2, b3, b4, b5, b6, b7] == [b0, b1, b2, b3] + ([b4, b5, b6, b7] + []);
  }

  /** Messages that differ only inside a window of n bits leave different registers. */
  lemma DetectsWindow<R(!new)>(m: Machine<R>, n: nat, c: R, p: seq<bool>, x: seq<bool>, y: seq<bool>, s: seq<bool>)
    requires Reversible(m) && Shifts(m, n) && Lossless(m, n)
    requires |x| == |y| <= n && x != y
    ensures Fold(m.absorb, c, p + x + s) != Fold(m.absorb, c, p + y + s)
  {
    if Fold(m.absorb, c, p + x + s) == Fold(m.absorb, c, p + y + s) {
      var c' := Fold(m.absorb, c, p);
      FoldConcat(m.absorb, c, p + x, s);
      FoldConcat(m.absorb, c, p + y, s);
      FoldConcat(m.absorb, c, p, x);
      FoldConcat(m.absorb, c, p, y);
      FoldInjective(m, Fold(m.absorb, c', x), Fold(m.absorb, c', y), s);
      FoldIsIterate(m, n, c', x);
      FoldIsIterate(m, n, c', y);
      IterateInjective(m, m.add(c', Word(m, x)), m.add(c', Word(m, y)), |x|);
      WordInjective(m, n, x, y);
    }
  }
}
