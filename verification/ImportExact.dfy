/**
 Exactly when allocate_import_pas keeps its promise, for the 2 MiB regions the demo imports
 and any list of windows, wherever their address computations wrap.
 */
module ImportExact {
  import opened SimCore
  import opened ImportAllocator

  const SIZE: nat := EXPORT_REGION_SIZE

  /** A window whose address computations stay below 2^64. */
  predicate BelowTop(w: Window) { w.base <= TWO64 - 2 * SIZE && End(w) < TWO64 - SIZE }

  /** A window at the top whose end wraps, with at most one region in it. */
  predicate TopTip(w: Window) { w.base > TWO64 - 2 * SIZE && TWO64 <= End(w) < TWO64 + SIZE }

  predicate Benign(w: Window) { BelowTop(w) || TopTip(w) }

  lemma {:induction false} LastProbeClosed(cur: nat, end: nat)
    requires Aligned(cur)
    ensures LastProbe(cur, end, SIZE) == if cur <= end then end - end % IMPORT_ALIGN else cur
    decreases end + 1 + SIZE - cur
  {
    if cur + SIZE <= end {
      assert AlignUp(cur + SIZE) == cur + SIZE;
      LastProbeClosed(cur + SIZE, end);
    }
  }

  lemma NoWrapIsBelowTop(w: Window)
    ensures NoWrap(w, SIZE) <==> BelowTop(w)
  {
    LastProbeClosed(AlignUp(w.base), End(w));
  }

  lemma TopTipGreedy(w: Window)
    requires TopTip(w)
    ensures Greedily(w, SIZE)
  {
    var end := Add64(w.base, w.size);
    assert end < SIZE;
    forall room: nat ensures Here(w, SIZE, room) == InWindow(w, SIZE)[..Min(room, |InWindow(w, SIZE)|)] {
      AlignUpAligned(w.base);
      if AlignUp(w.base) < TWO64 {
        AlignUpAgrees(w.base);
        assert AlignUp(w.base) == TWO64 - SIZE && AlignUp(TWO64) == TWO64;
        assert Greedy(TWO64, End(w), SIZE) == [];
        assert InWindow(w, SIZE) == [TWO64 - SIZE] + Greedy(TWO64, End(w), SIZE);
        if room > 0 {
          assert Add64(TWO64 - SIZE, SIZE) == 0;
          assert Fill64(AlignUp64(0), end, SIZE, room - 1) == [];
        }
      } else {
        assert AlignUp64(w.base) == 0;
      }
    }
  }

  lemma BenignIsGreedy(w: Window)
    requires Benign(w)
    ensures Greedily(w, SIZE)
  {
    if BelowTop(w) {
      NoWrapIsBelowTop(w);
      NoWrapIsGreedy(w, SIZE);
    } else {
      TopTipGreedy(w);
    }
  }

  // ----- Windows whose end does not wrap: any list, overlapping or not -----------------------

  /** The loop runs on past the window until it hands out the last 2 MiB below 2^64. */
  lemma {:induction false} RunsPastTop(cur: u64, end: u64, room: nat)
    requires Aligned(cur) && LastProbe(cur, end, SIZE) + SIZE == TWO64
    requires room == |Greedy(cur, end, SIZE)| + 1
    ensures |Fill64(cur, end, SIZE, room)| == room
    ensures Fill64(cur, end, SIZE, room)[room - 1] == TWO64 - SIZE
    decreases room
  {
    if cur + SIZE <= end {
      AlignUpAgrees(cur + SIZE);
      RunsPastTop(AlignUp(cur + SIZE), end, room - 1);
    } else {
      assert Add64(cur, SIZE) == 0;
      assert Fill64(cur, end, SIZE, 1) == [cur] + Fill64(AlignUp64(0), end, SIZE, 0);
    }
  }

  lemma AlignUp64Aligned(v: u64)
    ensures Aligned(AlignUp64(v))
  {
  }

  lemma PastTop(w: Window) returns (room: nat)
    requires End(w) < TWO64 && !BelowTop(w)
    ensures var here := Here(w, SIZE, room); |here| == room > 0 && here[room - 1] == TWO64 - SIZE
  {
    var cur := AlignUp64(w.base);
    AlignUp64Aligned(w.base);
    LastProbeClosed(cur, End(w));
    room := |Greedy(cur, End(w), SIZE)| + 1;
    RunsPastTop(cur, End(w), room);
  }

  lemma PlaceExtends(ws: seq<Window>, k: nat, count: nat)
    requires k < |ws| && |Place(ws[..k + 1], SIZE, count)| == count
    ensures Place(ws, SIZE, count) == Place(ws[..k + 1], SIZE, count)
  {
    FullStays(ws, k + 1, SIZE, count);
  }

  /** The first window that is not below the top: at some count the address 2^64 - 2 MiB is handed out. */
  lemma HandsOutTop(ws: seq<Window>, k: nat) returns (count: nat)
    requires k < |ws| && End(ws[k]) < TWO64 && !BelowTop(ws[k])
    requires forall i :: 0 <= i < k ==> BelowTop(ws[i])
    ensures var p := Place(ws, SIZE, count); |p| == count > 0 && p[count - 1].pa == TWO64 - SIZE
  {
    var room := PastTop(ws[k]);
    var init := ws[..k];
    forall i | 0 <= i < k ensures Greedily(init[i], SIZE) { BenignIsGreedy(init[i]); }
    count := Capacity(init, SIZE) + room;
    PlaceSize(init, SIZE, count);
    var here := Here(ws[k], SIZE, room);
    assert ws[..k + 1][..k] == init;
    assert Place(ws[..k + 1], SIZE, count) == Place(init, SIZE, count) + Tag(here, ws[k]);
    PlaceExtends(ws, k, count);
  }

  ghost predicate AlwaysCorrect(ws: seq<Window>) { forall count: nat :: Correct(ws, SIZE, count) }

  ghost predicate AllBelowTop(ws: seq<Window>) { forall i :: 0 <= i < |ws| ==> BelowTop(ws[i]) }

  lemma AllBelowTopGreedy(ws: seq<Window>)
    requires AllBelowTop(ws)
    ensures AllGreedily(ws, SIZE)
  {
    forall i | 0 <= i < |ws| ensures Greedily(ws[i], SIZE) { BenignIsGreedy(ws[i]); }
  }

  lemma FirstNotBelow(ws: seq<Window>) returns (k: nat)
    requires !AllBelowTop(ws)
    ensures k < |ws| && !BelowTop(ws[k]) && forall i :: 0 <= i < k ==> BelowTop(ws[i])
  {
    k := 0;
    while k < |ws| && BelowTop(ws[k])
      invariant 0 <= k <= |ws| && forall i :: 0 <= i < k ==> BelowTop(ws[i])
    {
      k := k + 1;
    }
  }

  lemma TopFitsNowhere(ws: seq<Window>, count: nat)
    requires forall i :: 0 <= i < |ws| ==> End(ws[i]) < TWO64
    requires var p := Place(ws, SIZE, count); |p| == count > 0 && p[count - 1].pa == TWO64 - SIZE
    ensures !Correct(ws, SIZE, count)
  {
    var p := Place(ws, SIZE, count);
    forall i | 0 <= i < |ws| ensures !PlacedIn(p[count - 1], ws[i], SIZE) {
      assert End(ws[i]) < TWO64;
    }
    assert !Somewhere(p[count - 1], ws, SIZE);
  }

  /**
   For windows that end below 2^64, overlapping or not: the allocator is correct for every
   count if and only if every window stays below the top.
   */
  lemma ExactlyBelowTop(ws: seq<Window>)
    requires forall i :: 0 <= i < |ws| ==> End(ws[i]) < TWO64
    ensures AlwaysCorrect(ws) <==> AllBelowTop(ws)
  {
    if AllBelowTop(ws) {
      AllBelowTopGreedy(ws);
      forall count: nat ensures Correct(ws, SIZE, count) { AllocatorCorrect(ws, SIZE, count); }
    } else {
      var k := FirstNotBelow(ws);
      var count := HandsOutTop(ws, k);
      TopFitsNowhere(ws, count);
    }
  }

  // ----- Disjoint windows whose ends may wrap ------------------------------------------------

  /** Correct, and disjoint ranges from disjoint windows. */
  ghost predicate Keeps(ws: seq<Window>, count: nat) {
    && Correct(ws, SIZE, count)
    && (|Place(ws, SIZE, count)| == count ==> PairwiseDisjoint(Place(ws, SIZE, count), SIZE))
  }

  ghost predicate AlwaysKeeps(ws: seq<Window>) { forall count: nat :: Keeps(ws, count) }

  ghost predicate AllBenign(ws: seq<Window>) { forall i :: 0 <= i < |ws| ==> Benign(ws[i]) }

  /** The computed end is so high that the loop never stops by itself. */
  predicate Endless(w: Window) { Add64(w.base, w.size) >= TWO64 - SIZE }

  lemma {:induction false} EndlessFills(cur: u64, end: u64, room: nat)
    requires Aligned(cur) && end >= TWO64 - SIZE
    ensures var f := Fill64(cur, end, SIZE, room); |f| == room && forall i :: 0 <= i < room ==> Aligned(f[i])
    decreases room
  {
    if room > 0 {
      AlignUp64Aligned(Add64(cur, SIZE));
      EndlessFills(AlignUp64(Add64(cur, SIZE)), end, room - 1);
    }
  }

  lemma {:induction false} FillAligned(cur: u64, end: u64, room: nat)
    requires Aligned(cur)
    ensures forall i :: 0 <= i < |Fill64(cur, end, SIZE, room)| ==> Aligned(Fill64(cur, end, SIZE, room)[i])
    decreases room
  {
    if room > 0 && Add64(cur, SIZE) <= end {
      AlignUp64Aligned(Add64(cur, SIZE));
      FillAligned(AlignUp64(Add64(cur, SIZE)), end, room - 1);
    }
  }

  ghost predicate AllAligned(ps: seq<Placement>) { forall i :: 0 <= i < |ps| ==> Aligned(ps[i].pa) }

  lemma {:induction false} PlaceAligned(ws: seq<Window>, count: nat)
    ensures AllAligned(Place(ws, SIZE, count))
  {
    if ws != [] {
      var init, last := ws[..|ws| - 1], ws[|ws| - 1];
      PlaceAligned(init, count);
      AlignUp64Aligned(last.base);
      FillAligned(AlignUp64(last.base), Add64(last.base, last.size), count - |Place(init, SIZE, count)|);
    }
  }

  lemma {:induction false} EndlessPlaces(ws: seq<Window>, k: nat, count: nat)
    requires k < |ws| && Endless(ws[k])
    ensures |Place(ws, SIZE, count)| == count
  {
    var init, last := ws[..|ws| - 1], ws[|ws| - 1];
    if k < |init| {
      EndlessPlaces(init, k, count);
    } else {
      AlignUp64Aligned(last.base);
      EndlessFills(AlignUp64(last.base), Add64(last.base, last.size), count - |Place(init, SIZE, count)|);
    }
  }

  lemma {:induction false} Pigeonhole(xs: seq<nat>, n: nat)
    requires forall i :: 0 <= i < |xs| ==> xs[i] < n
    requires forall i, j :: 0 <= i < j < |xs| ==> xs[i] != xs[j]
    ensures |xs| <= n
  {
    if xs != [] {
      assert xs[0] < n;
      if n - 1 in xs {
        var i :| 0 <= i < |xs| && xs[i] == n - 1;
        Pigeonhole(xs[..i] + xs[i + 1..], n - 1);
      } else {
        Pigeonhole(xs, n - 1);
      }
    }
  }

  /** There are only 2^43 aligned addresses, so an endless window repeats itself. */
  lemma EndlessBreaks(ws: seq<Window>, k: nat)
    requires k < |ws| && Endless(ws[k])
    ensures !AlwaysKeeps(ws)
  {
    var count := TWO64 / SIZE + 1;
    EndlessPlaces(ws, k, count);
    PlaceAligned(ws, count);
    var ps := Place(ws, SIZE, count);
    if PairwiseDisjoint(ps, SIZE) {
      var xs := seq(count, i requires 0 <= i < count => ps[i].pa / SIZE);
      forall i, j | 0 <= i < j < count ensures xs[i] != xs[j] {
        assert Disjoint(ps[i].pa, ps[j].pa, SIZE);
        assert Aligned(ps[i].pa) && Aligned(ps[j].pa);
      }
      Pigeonhole(xs, TWO64 / SIZE);
    }
    assert !Keeps(ws, count);
  }

  /** What a window contributes when enough ranges are wanted and its loop ends by itself. */
  function Share(w: Window): seq<nat> {
    var cur, end := AlignUp64(w.base), Add64(w.base, w.size);
    if cur == TWO64 - SIZE then [cur] + Greedy(0, end, SIZE) else Greedy(cur, end, SIZE)
  }

  lemma FillEnds(cur: u64, end: u64, room: nat)
    requires Aligned(cur) && cur < TWO64 - SIZE && end < TWO64 - SIZE
    ensures var g := Greedy(cur, end, SIZE); Fill64(cur, end, SIZE, room) == g[..Min(room, |g|)]
  {
    LastProbeClosed(cur, end);
    FillIsGreedy(cur, end, SIZE, room);
  }

  lemma HereIsShare(w: Window, room: nat)
    requires !Endless(w)
    ensures Here(w, SIZE, room) == Share(w)[..Min(room, |Share(w)|)]
  {
    var cur, end := AlignUp64(w.base), Add64(w.base, w.size);
    AlignUp64Aligned(w.base);
    if cur < TWO64 - SIZE {
      FillEnds(cur, end, room);
    } else if room > 0 {
      var g := Greedy(0, end, SIZE);
      assert cur == TWO64 - SIZE && Add64(cur, SIZE) == 0 && AlignUp64(0) == 0;
      FillEnds(0, end, room - 1);
      assert Here(w, SIZE, room) == [cur] + Fill64(0, end, SIZE, room - 1);
      assert ([cur] + g)[..Min(room, |g| + 1)] == [cur] + g[..Min(room - 1, |g|)];
    }
  }

  /** A benign window's share is exactly greedy's. */
  lemma ShareIsGreedy(w: Window)
    requires Benign(w)
    ensures !Endless(w) && Share(w) == InWindow(w, SIZE)
  {
    BenignIsGreedy(w);
    var n := |Share(w)| + |InWindow(w, SIZE)|;
    HereIsShare(w, n);
    assert Here(w, SIZE, n) == Share(w) && Here(w, SIZE, n) == InWindow(w, SIZE);
  }

  function Flat(gs: seq<seq<nat>>): seq<nat> {
    if gs == [] then [] else Flat(gs[..|gs| - 1]) + gs[|gs| - 1]
  }

  function ShareList(ws: seq<Window>): (gs: seq<seq<nat>>)
    ensures |gs| == |ws| && forall i :: 0 <= i < |ws| ==> gs[i] == Share(ws[i])
  {
    seq(|ws|, i requires 0 <= i < |ws| => Share(ws[i]))
  }

  /** All shares, in window order. */
  function Shares(ws: seq<Window>): seq<nat> { Flat(ShareList(ws)) }

  function Addresses(ps: seq<Placement>): (xs: seq<nat>)
    ensures |xs| == |ps| && forall i :: 0 <= i < |ps| ==> xs[i] == ps[i].pa
  {
    seq(|ps|, i requires 0 <= i < |ps| => ps[i].pa)
  }

  ghost predicate NoneEndless(ws: seq<Window>) { forall i :: 0 <= i < |ws| ==> !Endless(ws[i]) }

  lemma TakeBoth(xs: seq<nat>, g: seq<nat>, before: seq<nat>, here: seq<nat>, count: nat)
    requires before == xs[..Min(count, |xs|)] && here == g[..Min(count - |before|, |g|)]
    ensures before + here == (xs + g)[..Min(count, |xs| + |g|)]
  {
    if count <= |xs| {
      assert here == [];
    } else {
      assert before == xs;
    }
  }

  lemma AddressesTag(before: seq<Placement>, here: seq<u64>, w: Window)
    ensures Addresses(before + Tag(here, w)) == Addresses(before) + here
  {
  }

  lemma SharesStep(ws: seq<Window>)
    requires ws != []
    ensures Shares(ws) == Shares(ws[..|ws| - 1]) + Share(ws[|ws| - 1])
  {
    assert ShareList(ws)[..|ws| - 1] == ShareList(ws[..|ws| - 1]);
  }

  lemma PlaceStep(ws: seq<Window>, count: nat, before: seq<Placement>, here: seq<u64>)
    requires ws != [] && before == Place(ws[..|ws| - 1], SIZE, count)
    requires here == Here(ws[|ws| - 1], SIZE, count - |before|)
    ensures Addresses(Place(ws, SIZE, count)) == Addresses(before) + here
  {
    AddressesTag(before, here, ws[|ws| - 1]);
  }

  lemma {:induction false} PlaceIsShares(ws: seq<Window>, count: nat)
    requires NoneEndless(ws)
    ensures Addresses(Place(ws, SIZE, count)) == Shares(ws)[..Min(count, |Shares(ws)|)]
  {
    if ws != [] {
      var init, last := ws[..|ws| - 1], ws[|ws| - 1];
      PlaceIsShares(init, count);
      var before := Place(init, SIZE, count);
      var here := Here(last, SIZE, count - |before|);
      HereIsShare(last, count - |before|);
      PlaceStep(ws, count, before, here);
      TakeBoth(Shares(init), Share(last), Addresses(before), here, count);
      SharesStep(ws);
    }
  }

  lemma PlaceCount(ws: seq<Window>, count: nat)
    requires NoneEndless(ws)
    ensures |Place(ws, SIZE, count)| == Min(count, |Shares(ws)|)
  {
    PlaceIsShares(ws, count);
  }

  ghost predicate Separate(xs: seq<nat>) { forall k, l :: 0 <= k < l < |xs| ==> Disjoint(xs[k], xs[l], SIZE) }

  ghost predicate FitsSome(x: nat, ws: seq<Window>) { exists i :: 0 <= i < |ws| && Fits(x, ws[i], SIZE) }

  /** What the promise says of all shares together. */
  lemma KeepsShares(ws: seq<Window>)
    requires NoneEndless(ws) && Keeps(ws, |Shares(ws)|)
    ensures Separate(Shares(ws)) && forall x :: x in Shares(ws) ==> FitsSome(x, ws)
  {
    var n := |Shares(ws)|;
    PlaceIsShares(ws, n);
    var p := Place(ws, SIZE, n);
    assert Addresses(p) == Shares(ws);
    forall k, l | 0 <= k < l < n ensures Disjoint(Shares(ws)[k], Shares(ws)[l], SIZE) {
      assert Disjoint(p[k].pa, p[l].pa, SIZE);
    }
    forall k | 0 <= k < n ensures FitsSome(Shares(ws)[k], ws) {
      assert Somewhere(p[k], ws, SIZE);
      var i :| 0 <= i < |ws| && PlacedIn(p[k], ws[i], SIZE);
      assert Fits(Shares(ws)[k], ws[i], SIZE);
    }
  }

  lemma {:induction false} FlatIn(gs: seq<seq<nat>>, k: nat, x: nat)
    requires k < |gs| && x in gs[k]
    ensures x in Flat(gs)
  {
    if k < |gs| - 1 { FlatIn(gs[..|gs| - 1], k, x); }
  }

  lemma {:induction false} FlatFrom(gs: seq<seq<nat>>, x: nat) returns (k: nat)
    requires x in Flat(gs)
    ensures k < |gs| && x in gs[k]
  {
    if x in gs[|gs| - 1] { k := |gs| - 1; } else { k := FlatFrom(gs[..|gs| - 1], x); }
  }

  lemma SeparateInit(xs: seq<nat>, g: seq<nat>)
    requires Separate(xs + g)
    ensures Separate(xs)
  {
    forall k, l | 0 <= k < l < |xs| ensures Disjoint(xs[k], xs[l], SIZE) {
      assert Disjoint((xs + g)[k], (xs + g)[l], SIZE);
    }
  }

  lemma NotInBoth(xs: seq<nat>, g: seq<nat>, x: nat)
    requires x in xs && x in g
    ensures !Separate(xs + g)
  {
    var k :| 0 <= k < |xs| && xs[k] == x;
    var l :| 0 <= l < |g| && g[l] == x;
    assert !Disjoint((xs + g)[k], (xs + g)[|xs| + l], SIZE);
  }

  /** An address in the shares of two windows is handed out twice. */
  lemma {:induction false} TwoCopies(gs: seq<seq<nat>>, j: nat, k: nat, x: nat)
    requires j < k < |gs| && x in gs[j] && x in gs[k]
    ensures !Separate(Flat(gs))
  {
    var init, g := gs[..|gs| - 1], gs[|gs| - 1];
    if k < |init| {
      TwoCopies(init, j, k, x);
      if Separate(Flat(init) + g) { SeparateInit(Flat(init), g); }
    } else {
      FlatIn(init, j, x);
      NotInBoth(Flat(init), g, x);
    }
  }

  // ----- Windows that hand out addresses they do not contain ---------------------------------

  /** The fill wraps to address 0, which the window does not contain. */
  predicate Spills(w: Window) {
    !Endless(w) && w.base > TWO64 - 2 * SIZE && Add64(w.base, w.size) >= SIZE
  }

  lemma SpillsZero(w: Window)
    requires Spills(w)
    ensures 0 in Share(w)
  {
    var cur, end := AlignUp64(w.base), Add64(w.base, w.size);
    assert cur == 0 || cur == TWO64 - SIZE;
    assert Greedy(0, end, SIZE)[0] == 0;
  }

  lemma OwnsZero(w: Window)
    requires Fits(0, w, SIZE)
    ensures 0 in Share(w)
  {
    assert AlignUp64(0) == 0 && Add64(0, w.size) == w.size;
    assert Greedy(0, w.size, SIZE)[0] == 0;
  }

  lemma SpillBreaks(ws: seq<Window>, k: nat)
    requires NoneEndless(ws) && k < |ws| && Spills(ws[k])
    ensures !AlwaysKeeps(ws)
  {
    if Keeps(ws, |Shares(ws)|) {
      KeepsShares(ws);
      SpillsZero(ws[k]);
      var gs := ShareList(ws);
      FlatIn(gs, k, 0);
      var j :| 0 <= j < |ws| && Fits(0, ws[j], SIZE);
      OwnsZero(ws[j]);
      if j < k { TwoCopies(gs, j, k, 0); } else { TwoCopies(gs, k, j, 0); }
    }
  }

  // ----- Windows that are skipped although they have room ------------------------------------

  /** The computed end wraps below the start, although at least one range fits. */
  predicate Skipped(w: Window) { !Endless(w) && w.base <= TWO64 - 2 * SIZE && End(w) >= TWO64 }

  lemma SkippedShare(w: Window)
    requires Skipped(w)
    ensures Share(w) == [] && Aligned(AlignUp(w.base)) && Fits(AlignUp(w.base), w, SIZE)
  {
    AlignUpAgrees(w.base);
    AlignUpAligned(w.base);
  }

  lemma Classes(w: Window)
    ensures Benign(w) || Endless(w) || Spills(w) || Skipped(w)
  {
  }

  lemma BenignEnds(w: Window)
    requires Benign(w)
    ensures !Endless(w) && !Spills(w) && !Skipped(w)
  {
  }

  lemma ShareFits(w: Window, x: nat)
    requires Benign(w) && x in Share(w)
    ensures Aligned(x) && Fits(x, w, SIZE)
  {
    ShareIsGreedy(w);
    var g := InWindow(w, SIZE);
    GreedyShare(w, SIZE, |g|);
    var i :| 0 <= i < |g| && g[i] == x;
    assert g[..|g|][i] == x;
  }

  ghost predicate BenignOrSkipped(ws: seq<Window>) {
    forall j :: 0 <= j < |ws| ==> Benign(ws[j]) || Skipped(ws[j])
  }

  /** Every address in the shares lies in a benign window, if no window spills. */
  lemma SharesFit(ws: seq<Window>, x: nat) returns (i: nat)
    requires x in Shares(ws) && BenignOrSkipped(ws)
    ensures i < |ws| && Benign(ws[i]) && Aligned(x) && Fits(x, ws[i], SIZE)
  {
    i := FlatFrom(ShareList(ws), x);
    if Skipped(ws[i]) { SkippedShare(ws[i]); }
    ShareFits(ws[i], x);
  }

  function Elements(xs: seq<nat>): (r: set<nat>)
    ensures forall x :: x in r <==> x in xs
  {
    if xs == [] then {} else Elements(xs[..|xs| - 1]) + {xs[|xs| - 1]}
  }

  lemma {:induction false} DistinctSize(xs: seq<nat>)
    requires Separate(xs)
    ensures |Elements(xs)| == |xs|
  {
    if xs != [] {
      var init, x := xs[..|xs| - 1], xs[|xs| - 1];
      assert xs == init + [x];
      SeparateInit(init, [x]);
      DistinctSize(init);
      if x in init { NotInBoth(init, [x], x); }
    }
  }

  lemma SeparateIn(xs: seq<nat>, a: nat, b: nat)
    requires Separate(xs) && a in xs && b in xs && a != b
    ensures Disjoint(a, b, SIZE)
  {
    var i :| 0 <= i < |xs| && xs[i] == a;
    var j :| 0 <= j < |xs| && xs[j] == b;
    assert i < j || j < i;
  }

  /** The first range of a skipped window is free. */
  lemma FreeRange(ws: seq<Window>, k: nat, x: nat)
    requires WindowsDisjoint(ws) && k < |ws| && Skipped(ws[k]) && BenignOrSkipped(ws) && x in Shares(ws)
    ensures Aligned(x) && FitsSome(x, ws) && Disjoint(x, AlignUp(ws[k].base), SIZE)
  {
    var i := SharesFit(ws, x);
    BenignEnds(ws[i]);
    SkippedShare(ws[k]);
  }

  lemma OneMoreFits(ws: seq<Window>, k: nat)
    requires WindowsDisjoint(ws) && k < |ws| && Skipped(ws[k]) && BenignOrSkipped(ws) && Separate(Shares(ws))
    ensures var xs, y := Elements(Shares(ws)), AlignUp(ws[k].base); y !in xs && Choice(xs + {y}, ws, SIZE)
  {
    var xs, y := Elements(Shares(ws)), AlignUp(ws[k].base);
    SkippedShare(ws[k]);
    forall x | x in xs ensures Aligned(x) && FitsSome(x, ws) && Disjoint(x, y, SIZE) { FreeRange(ws, k, x); }
    assert FitsSome(y, ws);
    forall a, b | a in xs && b in xs && a != b ensures Disjoint(a, b, SIZE) { SeparateIn(Shares(ws), a, b); }
    ChoiceFrom(xs + {y}, ws);
  }

  lemma ChoiceFrom(xs: set<nat>, ws: seq<Window>)
    requires forall x :: x in xs ==> Aligned(x) && FitsSome(x, ws)
    requires forall a, b :: a in xs && b in xs && a != b ==> Disjoint(a, b, SIZE)
    ensures Choice(xs, ws, SIZE)
  {
    forall x | x in xs ensures exists i :: 0 <= i < |ws| && Fits(x, ws[i], SIZE) { assert FitsSome(x, ws); }
  }

  lemma TooFew(ws: seq<Window>, n: nat, xs: set<nat>)
    requires |Place(ws, SIZE, n)| < n && Choice(xs, ws, SIZE) && |xs| == n
    ensures !AlwaysKeeps(ws)
  {
    assert !Correct(ws, SIZE, n);
    assert !Keeps(ws, n);
  }

  lemma AllEnd(ws: seq<Window>)
    requires BenignOrSkipped(ws)
    ensures NoneEndless(ws)
  {
    forall j | 0 <= j < |ws| ensures !Endless(ws[j]) { if Benign(ws[j]) { BenignEnds(ws[j]); } }
  }

  /** A skipped window: one range more than the code finds would fit. */
  lemma SkipBreaks(ws: seq<Window>, k: nat)
    requires WindowsDisjoint(ws) && k < |ws| && Skipped(ws[k]) && BenignOrSkipped(ws)
    ensures !AlwaysKeeps(ws)
  {
    AllEnd(ws);
    var n, xs, y := |Shares(ws)|, Elements(Shares(ws)), AlignUp(ws[k].base);
    if Keeps(ws, n) {
      KeepsShares(ws);
      DistinctSize(Shares(ws));
      OneMoreFits(ws, k);
      PlaceCount(ws, n + 1);
      TooFew(ws, n + 1, xs + {y});
    }
  }

  // ----- The exact condition ------------------------------------------------------------------

  lemma AllBenignGreedy(ws: seq<Window>)
    requires AllBenign(ws)
    ensures AllGreedily(ws, SIZE)
  {
    forall i | 0 <= i < |ws| ensures Greedily(ws[i], SIZE) { BenignIsGreedy(ws[i]); }
  }

  /**
   For disjoint windows, whether or not their ends wrap: success always means aligned, disjoint
   ranges inside windows, and failure that so many do not exist, if and only if every window
   stays below the top or is a wrapping tip with at most one region.
   */
  lemma ExactlyBenign(ws: seq<Window>)
    requires WindowsDisjoint(ws)
    ensures AlwaysKeeps(ws) <==> AllBenign(ws)
  {
    if AllBenign(ws) {
      AllBenignGreedy(ws);
      forall count: nat ensures Keeps(ws, count) { AllocatorCorrect(ws, SIZE, count); }
    } else {
      var k :| 0 <= k < |ws| && !Benign(ws[k]);
      SomeBreaks(ws, k);
    }
  }

  lemma SomeBreaks(ws: seq<Window>, k: nat)
    requires WindowsDisjoint(ws) && k < |ws| && !Benign(ws[k])
    ensures !AlwaysKeeps(ws)
  {
    if j :| 0 <= j < |ws| && Endless(ws[j]) {
      EndlessBreaks(ws, j);
    } else if j :| 0 <= j < |ws| && Spills(ws[j]) {
      SpillBreaks(ws, j);
    } else {
      forall j | 0 <= j < |ws| ensures Benign(ws[j]) || Skipped(ws[j]) { Classes(ws[j]); }
      SkipBreaks(ws, k);
    }
  }

  // ----- Concrete windows ---------------------------------------------------------------------

  /**
   A 2 MiB window ending 2 MiB below the top of the address space: asked for two regions, the
   code returns a second one behind it.
   */
  lemma TopWindowOverruns(w: Window)
    requires w.base == TWO64 - 2 * SIZE && w.size == SIZE
    ensures Here(w, SIZE, 2) == [w.base, TWO64 - SIZE]
    ensures !Fits(TWO64 - SIZE, w, SIZE) && !BelowTop(w)
  {
    var top := TWO64 - SIZE;
    assert AlignUp64(w.base) == w.base && AlignUp64(top) == top;
    assert Add64(top, SIZE) == 0;
    assert Fill64(top, top, SIZE, 1) == [top];
  }

  /** A 4 MiB window that reaches the top exactly: its end wraps to zero and the code finds no room in it. */
  lemma WrappedWindowStarves(w: Window)
    requires w.base == TWO64 - 2 * SIZE && w.size == 2 * SIZE
    ensures Place([w], SIZE, 1) == [] && Choice({w.base}, [w], SIZE) && !Correct([w], SIZE, 1)
  {
    assert AlignUp64(w.base) == w.base && Add64(w.base, w.size) == 0;
    assert Here(w, SIZE, 1) == [];
    assert Place([w], SIZE, 1) == Place([w][..0], SIZE, 1) + Tag(Here(w, SIZE, 1), w);
    assert Fits(w.base, [w][0], SIZE);
    assert |{w.base}| == 1;
  }
}
