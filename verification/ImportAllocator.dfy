/**
 allocate_import_pas (ub_obmm_pool_demo.c): greedy placement of equally sized, 2 MiB
 aligned import ranges into the decoder windows, in 64-bit address arithmetic.
 */
module ImportAllocator {
  import opened SimCore

  const IMPORT_ALIGN: nat := 0x20_0000
  const EXPORT_REGION_SIZE: nat := 0x20_0000
  const TWO64: nat := 0x1_0000_0000_0000_0000

  type u64 = n: nat | n < TWO64

  datatype Window = Window(base: u64, size: u64, cacheable: bool)

  /** An import range starting at `pa`, mapped O_SYNC exactly when its window is not cacheable. */
  datatype Placement = Placement(pa: u64, osync: bool)

  // ----- The code's arithmetic: every sum wraps at 2^64 --------------------------------

  function Add64(a: u64, b: u64): u64 { if a + b < TWO64 then a + b else a + b - TWO64 }

  /** align_up_u64(v, IMPORT_ALIGN): the addition wraps, then the low bits are cleared. */
  function AlignUp64(v: u64): u64 {
    var w := Add64(v, IMPORT_ALIGN - 1);
    w - w % IMPORT_ALIGN
  }

  /** The inner loop: at most `room` more ranges from `cur` on. */
  function Fill64(cur: u64, end: u64, size: u64, room: nat): (r: seq<u64>)
    ensures |r| <= room
    decreases room
  {
    if room > 0 && Add64(cur, size) <= end
    then [cur] + Fill64(AlignUp64(Add64(cur, size)), end, size, room - 1)
    else []
  }

  function Tag(pas: seq<u64>, w: Window): (r: seq<Placement>)
    ensures |r| == |pas|
    ensures forall i :: 0 <= i < |r| ==> r[i] == Placement(pas[i], !w.cacheable)
  {
    seq(|pas|, i requires 0 <= i < |pas| => Placement(pas[i], !w.cacheable))
  }

  /** What one window contributes when `room` ranges are still wanted. */
  function Here(w: Window, size: u64, room: nat): (r: seq<u64>)
    ensures |r| <= room
  {
    Fill64(AlignUp64(w.base), Add64(w.base, w.size), size, room)
  }

  /** What the whole loop places when asked for `count` ranges. */
  function Place(ws: seq<Window>, size: u64, count: nat): (r: seq<Placement>)
    ensures |r| <= count
  {
    if ws == [] then []
    else
      var before, last := Place(ws[..|ws| - 1], size, count), ws[|ws| - 1];
      before + Tag(Here(last, size, count - |before|), last)
  }

  /** The inner loop of allocate_import_pas over one window. */
  method FillWindow(w: Window, size: u64, room: nat) returns (pas: seq<u64>)
    ensures pas == Here(w, size, room)
  {
    var cur, end := AlignUp64(w.base), Add64(w.base, w.size);
    pas := [];
    while |pas| < room && Add64(cur, size) <= end
      invariant |pas| <= room
      invariant pas + Fill64(cur, end, size, room - |pas|) == Here(w, size, room)
      decreases room - |pas|
    {
      var next := AlignUp64(Add64(cur, size));
      assert pas + ([cur] + Fill64(next, end, size, room - |pas| - 1))
          == pas + [cur] + Fill64(next, end, size, room - |pas| - 1);
      pas := pas + [cur];
      cur := next;
    }
  }

  /** allocate_import_pas with the windows already parsed. */
  method AllocateImportPas(count: int, size: u64, windows: seq<Window>)
    returns (ok: bool, placed: seq<Placement>)
    ensures count <= 0 ==> ok && placed == []
    ensures count > 0 ==> placed == Place(windows, size, count) && (ok <==> |placed| == count)
  {
    placed := [];
    if count <= 0 {
      return true, [];
    }
    var wi := 0;
    while wi < |windows| && |placed| < count
      invariant 0 <= wi <= |windows|
      invariant placed == Place(windows[..wi], size, count)
    {
      var here := FillWindow(windows[wi], size, count - |placed|);
      assert windows[..wi + 1][..wi] == windows[..wi];
      placed := placed + Tag(here, windows[wi]);
      wi := wi + 1;
    }
    FullStays(windows, wi, size, count);
    ok := |placed| == count;
  }

  /** Once enough ranges are placed, the remaining windows add nothing. */
  lemma {:induction false} FullStays(ws: seq<Window>, k: nat, size: u64, count: nat)
    requires k <= |ws| && (k == |ws| || |Place(ws[..k], size, count)| == count)
    ensures Place(ws, size, count) == Place(ws[..k], size, count)
  {
    if k == |ws| {
      assert ws[..k] == ws;
    } else {
      var init := ws[..|ws| - 1];
      assert init[..k] == ws[..k];
      FullStays(init, k, size, count);
    }
  }

  // ----- The same filling in exact arithmetic ------------------------------------------

  function End(w: Window): nat { w.base + w.size }

  /** The lowest aligned address at or above v. */
  function AlignUp(v: nat): (r: nat)
    ensures v <= r < v + IMPORT_ALIGN
  {
    (v + IMPORT_ALIGN - 1) / IMPORT_ALIGN * IMPORT_ALIGN
  }

  predicate Aligned(x: nat) { x % IMPORT_ALIGN == 0 }

  lemma AlignUpAligned(v: nat)
    ensures Aligned(AlignUp(v))
  {
  }

  lemma AlignUpLeast(v: nat, x: nat)
    requires Aligned(x) && v <= x
    ensures AlignUp(v) <= x
  {
  }

  /** The ranges greedy takes from [cur, end): each as low as alignment and its predecessor allow. */
  function Greedy(cur: nat, end: nat, size: nat): seq<nat>
    requires size > 0
    decreases end + size + 1 - cur
  {
    if cur + size <= end then [cur] + Greedy(AlignUp(cur + size), end, size) else []
  }

  /** The address greedy looks at last, where it finds no room. */
  function LastProbe(cur: nat, end: nat, size: nat): (p: nat)
    requires size > 0
    ensures cur <= p && p + size > end
    decreases end + size + 1 - cur
  {
    if cur + size <= end then LastProbe(AlignUp(cur + size), end, size) else cur
  }

  function InWindow(w: Window, size: nat): seq<nat>
    requires size > 0
  {
    Greedy(AlignUp(w.base), End(w), size)
  }

  /** No address computed while filling the window reaches 2^64. */
  predicate NoWrap(w: Window, size: nat)
    requires size > 0
  {
    End(w) < TWO64 && LastProbe(AlignUp(w.base), End(w), size) + size < TWO64
  }

  /** The loop fills the window as greedy would in exact arithmetic, however many ranges are wanted. */
  ghost predicate Greedily(w: Window, size: u64)
    requires size > 0
  {
    forall room: nat :: Here(w, size, room) == InWindow(w, size)[..Min(room, |InWindow(w, size)|)]
  }

  ghost predicate AllGreedily(ws: seq<Window>, size: u64)
    requires size > 0
  {
    forall i :: 0 <= i < |ws| ==> Greedily(ws[i], size)
  }

  /** How many ranges greedy can place in all windows together. */
  function Capacity(ws: seq<Window>, size: nat): nat
    requires size > 0
  {
    if ws == [] then 0 else Capacity(ws[..|ws| - 1], size) + |InWindow(ws[|ws| - 1], size)|
  }

  lemma AlignUpAgrees(v: u64)
    requires AlignUp(v) < TWO64
    ensures AlignUp64(v) == AlignUp(v)
  {
  }

  /** Without wrap-around the loop computes exactly a prefix of the greedy filling. */
  lemma {:induction false} FillIsGreedy(cur: u64, end: u64, size: u64, room: nat)
    requires size > 0 && LastProbe(cur, end, size) + size < TWO64
    ensures var g := Greedy(cur, end, size); Fill64(cur, end, size, room) == g[..Min(room, |g|)]
    decreases room
  {
    if room > 0 && cur + size <= end {
      assert Add64(cur, size) == cur + size;
      AlignUpAgrees(cur + size);
      FillIsGreedy(AlignUp(cur + size), end, size, room - 1);
      var g, rest := Greedy(cur, end, size), Greedy(AlignUp(cur + size), end, size);
      assert g == [cur] + rest;
      assert g[..Min(room, |g|)] == [cur] + rest[..Min(room - 1, |rest|)];
    } else if cur + size > end {
      ProbeWithin(cur, end, size);
    }
  }

  lemma ProbeWithin(cur: nat, end: nat, size: nat)
    requires size > 0 && cur + size > end && LastProbe(cur, end, size) + size < TWO64
    ensures cur + size < TWO64
  {
  }

  // ----- Greedy's ranges are sound -------------------------------------------------------

  predicate Disjoint(x: nat, y: nat, size: nat) { x + size <= y || y + size <= x }

  predicate Fits(x: nat, w: Window, size: nat) { w.base <= x && x + size <= End(w) }

  lemma {:induction false} GreedySound(cur: nat, end: nat, size: nat)
    requires size > 0 && Aligned(cur)
    ensures SoundFrom(Greedy(cur, end, size), cur, end, size)
    decreases end + size + 1 - cur
  {
    if cur + size <= end {
      AlignUpAligned(cur + size);
      GreedySound(AlignUp(cur + size), end, size);
      assert Greedy(cur, end, size) == [cur] + Greedy(AlignUp(cur + size), end, size);
    }
  }

  /** p is one of the ranges greedy puts into window w. */
  ghost predicate PlacedIn(p: Placement, w: Window, size: nat) {
    Aligned(p.pa) && Fits(p.pa, w, size) && p.osync == !w.cacheable
  }

  predicate WindowsDisjoint(ws: seq<Window>) {
    forall i, j :: 0 <= i < j < |ws| ==> End(ws[i]) <= ws[j].base || End(ws[j]) <= ws[i].base
  }

  lemma StartAgrees(w: Window, size: u64)
    requires size > 0 && NoWrap(w, size)
    ensures AlignUp64(w.base) == AlignUp(w.base) && Add64(w.base, w.size) == End(w)
  {
    AlignUpAgrees(w.base);
  }

  /** Without wrap-around in its address computations, a window is filled greedily. */
  lemma NoWrapIsGreedy(w: Window, size: u64)
    requires size > 0 && NoWrap(w, size)
    ensures Greedily(w, size)
  {
    forall room: nat ensures Here(w, size, room) == InWindow(w, size)[..Min(room, |InWindow(w, size)|)] {
      StartAgrees(w, size);
      FillIsGreedy(AlignUp(w.base), End(w), size, room);
    }
  }

  /** One window's share: as many as greedy finds, all sound and pairwise disjoint. */
  lemma HereSound(w: Window, size: u64, room: nat)
    requires size > 0 && Greedily(w, size)
    ensures var here := Here(w, size, room);
      && |here| == Min(room, |InWindow(w, size)|)
      && (forall i :: 0 <= i < |here| ==> Aligned(here[i]) && Fits(here[i], w, size))
      && (forall i, j :: 0 <= i < j < |here| ==> Disjoint(here[i], here[j], size))
  {
    GreedyShare(w, size, Min(room, |InWindow(w, size)|));
    assert Here(w, size, room) == InWindow(w, size)[..Min(room, |InWindow(w, size)|)];
  }

  ghost predicate SoundFrom(g: seq<nat>, cur: nat, end: nat, size: nat) {
    && (forall i :: 0 <= i < |g| ==> Aligned(g[i]) && cur <= g[i] && g[i] + size <= end)
    && (forall i, j :: 0 <= i < j < |g| ==> g[i] + size <= g[j])
  }

  lemma GreedyShare(w: Window, size: nat, n: nat)
    requires size > 0 && n <= |InWindow(w, size)|
    ensures var g := InWindow(w, size)[..n];
      && (forall i :: 0 <= i < n ==> Aligned(g[i]) && Fits(g[i], w, size))
      && (forall i, j :: 0 <= i < j < n ==> Disjoint(g[i], g[j], size))
  {
    AlignUpAligned(w.base);
    GreedySound(AlignUp(w.base), End(w), size);
    assert SoundFrom(InWindow(w, size)[..n], AlignUp(w.base), End(w), size);
  }

  lemma {:induction false} PlaceSize(ws: seq<Window>, size: u64, count: nat)
    requires size > 0 && AllGreedily(ws, size)
    ensures |Place(ws, size, count)| == Min(count, Capacity(ws, size))
  {
    if ws != [] {
      var init := ws[..|ws| - 1];
      GreedilyInit(ws, size);
      PlaceSize(init, size, count);
      HereSize(ws[|ws| - 1], size, count - |Place(init, size, count)|);
    }
  }

  lemma GreedilyInit(ws: seq<Window>, size: u64)
    requires size > 0 && ws != [] && AllGreedily(ws, size)
    ensures AllGreedily(ws[..|ws| - 1], size) && Greedily(ws[|ws| - 1], size)
  {
  }

  lemma HereSize(w: Window, size: u64, room: nat)
    requires size > 0 && Greedily(w, size)
    ensures |Here(w, size, room)| == Min(room, |InWindow(w, size)|)
  {
    HereSound(w, size, room);
  }

  /** Every placement is aligned and lies inside a window with the right mapping mode. */
  ghost predicate AllPlaced(ps: seq<Placement>, ws: seq<Window>, size: nat) {
    forall k :: 0 <= k < |ps| ==> Somewhere(ps[k], ws, size)
  }

  ghost predicate Somewhere(p: Placement, ws: seq<Window>, size: nat) {
    exists i :: 0 <= i < |ws| && PlacedIn(p, ws[i], size)
  }

  ghost predicate PairwiseDisjoint(ps: seq<Placement>, size: nat) {
    forall k, l :: 0 <= k < l < |ps| ==> Disjoint(ps[k].pa, ps[l].pa, size)
  }

  /** Appending one window's share to the placements of the windows before it. */
  lemma Extend(before: seq<Placement>, ws: seq<Window>, here: seq<u64>, size: nat)
    requires ws != [] && AllPlaced(before, ws[..|ws| - 1], size)
    requires forall i :: 0 <= i < |here| ==> Aligned(here[i]) && Fits(here[i], ws[|ws| - 1], size)
    ensures AllPlaced(before + Tag(here, ws[|ws| - 1]), ws, size)
  {
    var ps, init := before + Tag(here, ws[|ws| - 1]), ws[..|ws| - 1];
    forall k | 0 <= k < |ps| ensures Somewhere(ps[k], ws, size) {
      if k < |before| {
        assert Somewhere(before[k], init, size);
        var i :| 0 <= i < |init| && PlacedIn(before[k], init[i], size);
        assert PlacedIn(ps[k], ws[i], size);
      } else {
        assert PlacedIn(ps[k], ws[|ws| - 1], size);
      }
    }
  }

  lemma ExtendDisjoint(before: seq<Placement>, init: seq<Window>, here: seq<u64>, w: Window, size: nat)
    requires AllPlaced(before, init, size) && PairwiseDisjoint(before, size)
    requires forall i :: 0 <= i < |here| ==> Fits(here[i], w, size)
    requires forall i, j :: 0 <= i < j < |here| ==> Disjoint(here[i], here[j], size)
    requires forall i :: 0 <= i < |init| ==> End(init[i]) <= w.base || End(w) <= init[i].base
    ensures PairwiseDisjoint(before + Tag(here, w), size)
  {
    forall k, i | 0 <= k < |before| && 0 <= i < |here| ensures Disjoint(before[k].pa, here[i], size) {
      assert Somewhere(before[k], init, size);
    }
  }

  lemma {:induction false} PlaceSound(ws: seq<Window>, size: u64, count: nat)
    requires size > 0 && AllGreedily(ws, size)
    ensures AllPlaced(Place(ws, size, count), ws, size)
    ensures WindowsDisjoint(ws) ==> PairwiseDisjoint(Place(ws, size, count), size)
  {
    if ws != [] {
      var init, last := ws[..|ws| - 1], ws[|ws| - 1];
      GreedilyInit(ws, size);
      PlaceSound(init, size, count);
      var before := Place(init, size, count);
      PlaceOn(before, ws, size, count - |before|);
      assert Place(ws, size, count) == before + Tag(Here(last, size, count - |before|), last);
      assert WindowsDisjoint(ws) ==> WindowsDisjoint(init);
    }
  }

  lemma PlaceOn(before: seq<Placement>, ws: seq<Window>, size: u64, room: nat)
    requires size > 0 && ws != [] && Greedily(ws[|ws| - 1], size) && AllPlaced(before, ws[..|ws| - 1], size)
    ensures var ps := before + Tag(Here(ws[|ws| - 1], size, room), ws[|ws| - 1]);
      AllPlaced(ps, ws, size) && (WindowsDisjoint(ws) && PairwiseDisjoint(before, size) ==> PairwiseDisjoint(ps, size))
  {
    var last := ws[|ws| - 1];
    HereSound(last, size, room);
    Extend(before, ws, Here(last, size, room), size);
    if WindowsDisjoint(ws) && PairwiseDisjoint(before, size) {
      ExtendDisjoint(before, ws[..|ws| - 1], Here(last, size, room), last, size);
    }
  }

  // ----- Greedy is optimal ---------------------------------------------------------------

  /** A competing choice: aligned, pairwise disjoint ranges, each wholly inside some window. */
  ghost predicate Choice(xs: set<nat>, ws: seq<Window>, size: nat) {
    && (forall x :: x in xs ==> Aligned(x) && exists i :: 0 <= i < |ws| && Fits(x, ws[i], size))
    && (forall x, y :: x in xs && y in xs && x != y ==> Disjoint(x, y, size))
  }

  /** Starting lower never fits fewer ranges. */
  lemma {:induction false} GreedyMonotone(a: nat, b: nat, end: nat, size: nat)
    requires size > 0 && a <= b
    ensures |Greedy(b, end, size)| <= |Greedy(a, end, size)|
    decreases end + size + 1 - a
  {
    if b + size <= end {
      AlignUpAligned(b + size);
      AlignUpLeast(a + size, AlignUp(b + size));
      GreedyMonotone(AlignUp(a + size), AlignUp(b + size), end, size);
    }
  }

  lemma {:induction false} Minimum(xs: set<nat>) returns (m: nat)
    requires xs != {}
    ensures m in xs && forall x :: x in xs ==> m <= x
  {
    m :| m in xs;
    var rest := xs - {m};
    if rest != {} {
      var k := Minimum(rest);
      assert xs == rest + {m};
      m := if k < m then k else m;
    } else {
      assert xs == {m};
    }
  }

  /** Exchange argument: inside one interval nobody beats greedy. */
  lemma {:induction false} GreedyOptimal(xs: set<nat>, cur: nat, end: nat, size: nat)
    requires size > 0
    requires forall x :: x in xs ==> Aligned(x) && cur <= x && x + size <= end
    requires forall x, y :: x in xs && y in xs && x != y ==> Disjoint(x, y, size)
    ensures |xs| <= |Greedy(cur, end, size)|
  {
    if xs != {} {
      var m := Minimum(xs);
      var rest := xs - {m};
      forall x | x in rest ensures AlignUp(m + size) <= x {
        assert Disjoint(m, x, size);
        AlignUpLeast(m + size, x);
      }
      GreedyOptimal(rest, AlignUp(m + size), end, size);
      GreedyMonotone(cur, m, end, size);
      assert |Greedy(m, end, size)| == 1 + |Greedy(AlignUp(m + size), end, size)|;
    }
  }

  /** Over all windows, overlapping or not, no choice is larger than what greedy places. */
  lemma {:induction false} NoChoiceBeatsGreedy(xs: set<nat>, ws: seq<Window>, size: nat)
    requires size > 0 && Choice(xs, ws, size)
    ensures |xs| <= Capacity(ws, size)
  {
    if ws == [] {
      assert xs == {};
    } else {
      var init, last := ws[..|ws| - 1], ws[|ws| - 1];
      var mine := set x | x in xs && Fits(x, last, size);
      var others := xs - mine;
      forall x | x in others ensures exists i :: 0 <= i < |init| && Fits(x, init[i], size) {
        var i :| 0 <= i < |ws| && Fits(x, ws[i], size);
        assert init[i] == ws[i];
      }
      NoChoiceBeatsGreedy(others, init, size);
      forall x | x in mine ensures AlignUp(last.base) <= x { AlignUpLeast(last.base, x); }
      GreedyOptimal(mine, AlignUp(last.base), End(last), size);
      assert xs == mine + others;
    }
  }

  // ----- What the allocator promises, and exactly when it keeps the promise --------------

  /** On success sound placements; on failure no choice of `count` ranges exists at all. */
  ghost predicate Correct(ws: seq<Window>, size: u64, count: nat) {
    var p := Place(ws, size, count);
    if |p| == count
    then AllPlaced(p, ws, size)
    else forall xs :: Choice(xs, ws, size) ==> |xs| < count
  }

  /** The promise is kept whenever every window is filled greedily; when that is, is in ImportExact. */
  lemma AllocatorCorrect(ws: seq<Window>, size: u64, count: nat)
    requires size > 0 && AllGreedily(ws, size)
    ensures Correct(ws, size, count)
    ensures WindowsDisjoint(ws) ==> PairwiseDisjoint(Place(ws, size, count), size)
  {
    PlaceSound(ws, size, count);
    PlaceSize(ws, size, count);
    forall xs | Choice(xs, ws, size) ensures |xs| <= Capacity(ws, size) {
      NoChoiceBeatsGreedy(xs, ws, size);
    }
  }
}
