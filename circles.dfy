/** Circles and unions of circles of part/src/math/geometry/Circle.ts.  A
    circle is never changed after construction, so it is a value; a
    `CircleUnion` is an object holding the circles it keeps. */
module Circles {
  import opened Wrappers
  import opened Vectors

  /** Math.PI */
  const PI: real := 3.141592653589793

  datatype Circle = Circle(p: Vec, r: real)
  {
    function X(): real { p.x }

    function Y(): real { p.y }

    /** Closed disc: the boundary counts. */
    predicate Contains(q: Vec) {
      var dx := q.x - X();
      var dy := q.y - Y();
      dx * dx + dy * dy <= r * r
    }

    /** The squared distance between the two centres. */
    function CentreDistSq(other: Circle): real {
      (X() - other.X()) * (X() - other.X()) + (Y() - other.Y()) * (Y() - other.Y())
    }

    /** Strict: circles that only touch do not intersect. */
    predicate Intersects(other: Circle, sqrt: real -> real) {
      sqrt(CentreDistSq(other)) < r + other.r
    }

    /** `Math.PI * r * r` */
    function Area(): real { PI * r * r }
  }

  /** The circle of radius r standing on the line y = baseY (y grows
      downwards) with its lowest point at x = centerX. */
  function OnBaseline(centerX: real, baseY: real, r: real): (c: Circle)
    ensures c.r == r && c.X() == centerX
  {
    Circle(Vec(centerX, baseY - r), r)
  }

  /** A circle on the baseline touches the line at (centerX, baseY) and has
      no point below it. */
  lemma OnBaselineRestsOnLine(centerX: real, baseY: real, r: real, q: Vec)
    requires r >= 0.0
    ensures OnBaseline(centerX, baseY, r).Contains(Vec(centerX, baseY))
    ensures q.y > baseY ==> !OnBaseline(centerX, baseY, r).Contains(q)
  {
    var c := OnBaseline(centerX, baseY, r);
    if q.y > baseY {
      var dx := q.x - c.X();
      var dy := q.y - c.Y();
      SquareLess(r, dy);
      SquareNonNegative(dx, dx * dx);
    }
  }

  /** For a non-negative radius, `contains` is "at distance at most r from
      the centre". */
  lemma ContainsIffWithinRadius(c: Circle, q: Vec, sqrt: real -> real)
    requires IsSqrt(sqrt) && c.r >= 0.0
    ensures c.Contains(q) <==> DistanceTo(q, c.p, sqrt) <= c.r
  {
    var d := Sub(q, c.p);
    assert LenSq(d) == (q.x - c.X()) * (q.x - c.X()) + (q.y - c.Y()) * (q.y - c.Y());
    LenSqNonNegative(d);
    SqrtLess(sqrt, LenSq(d), c.r);
  }

  lemma IntersectsSymmetric(a: Circle, b: Circle, sqrt: real -> real)
    ensures a.Intersects(b, sqrt) <==> b.Intersects(a, sqrt)
  {
    assert (a.X() - b.X()) * (a.X() - b.X()) == (b.X() - a.X()) * (b.X() - a.X());
    assert (a.Y() - b.Y()) * (a.Y() - b.Y()) == (b.Y() - a.Y()) * (b.Y() - a.Y());
    assert a.CentreDistSq(b) == b.CentreDistSq(a);
  }

  /** Without the root: two circles with a non-negative radius sum intersect
      exactly when the squared distance of their centres is below the
      squared radius sum. */
  lemma IntersectsIffSquared(a: Circle, b: Circle, sqrt: real -> real)
    requires IsSqrt(sqrt) && a.r + b.r >= 0.0
    ensures a.Intersects(b, sqrt) <==> a.CentreDistSq(b) < (a.r + b.r) * (a.r + b.r)
  {
    var dx := a.X() - b.X();
    var dy := a.Y() - b.Y();
    SquareNonNegative(dx, dx * dx);
    SquareNonNegative(dy, dy * dy);
    SqrtLess(sqrt, a.CentreDistSq(b), a.r + b.r);
  }

  /** Circle k intersects some other circle of cs. */
  ghost predicate HasPartner(cs: seq<Circle>, sqrt: real -> real, k: int) {
    0 <= k < |cs| && exists j :: 0 <= j < |cs| && j != k && cs[k].Intersects(cs[j], sqrt)
  }

  // ---------------------------------------------------------------------
  // filterOverlappingCircles.  `added` marks the circles already pushed and
  // `kept` lists their indices in push order.  With `skipAdded` the inner
  // loop skips every circle already added, as the source does; without it
  // only the circle itself is skipped, which the inner `if (!added[j])`
  // guard of the source presupposes.
  // ---------------------------------------------------------------------

  datatype Pass = Pass(added: seq<bool>, kept: seq<nat>)

  datatype Scan = Scan(pass: Pass, hasOverlap: bool)

  /** One turn of the inner loop: circle j against the outer circle i. */
  function ScanStep(cs: seq<Circle>, sqrt: real -> real, skipAdded: bool, i: nat, j: nat, s: Scan): (r: Scan)
    requires i < |cs| && j < |cs| && |s.pass.added| == |cs|
    ensures |r.pass.added| == |cs|
  {
    if i == j || (skipAdded && s.pass.added[j]) then s
    else if cs[i].Intersects(cs[j], sqrt) then
      if !s.pass.added[j] then Scan(Pass(s.pass.added[j := true], s.pass.kept + [j]), true)
      else s.(hasOverlap := true)
    else s
  }

  /** The inner loop over j, for the outer circle i. */
  function ScanFrom(cs: seq<Circle>, sqrt: real -> real, skipAdded: bool, i: nat, j: nat, s: Scan): (r: Scan)
    requires i < |cs| && |s.pass.added| == |cs|
    ensures |r.pass.added| == |cs|
    decreases |cs| - j
  {
    if j >= |cs| then s
    else ScanFrom(cs, sqrt, skipAdded, i, j + 1, ScanStep(cs, sqrt, skipAdded, i, j, s))
  }

  /** One turn of the outer loop, for circle i. */
  function SweepStep(cs: seq<Circle>, sqrt: real -> real, skipAdded: bool, i: nat, p: Pass): (r: Pass)
    requires i < |cs| && |p.added| == |cs|
    ensures |r.added| == |cs|
  {
    if p.added[i] then p
    else
      var s := ScanFrom(cs, sqrt, skipAdded, i, 0, Scan(p, false));
      if s.hasOverlap then Pass(s.pass.added[i := true], s.pass.kept + [i]) else s.pass
  }

  /** The outer loop over i. */
  function Sweep(cs: seq<Circle>, sqrt: real -> real, skipAdded: bool, i: nat, p: Pass): (r: Pass)
    requires |p.added| == |cs|
    ensures |r.added| == |cs|
    decreases |cs| - i
  {
    if i >= |cs| then p
    else Sweep(cs, sqrt, skipAdded, i + 1, SweepStep(cs, sqrt, skipAdded, i, p))
  }

  function InitialPass(n: nat): Pass {
    Pass(seq(n, _ => false), [])
  }

  /** The indices of the circles the filter returns, in output order. */
  function FilterIndices(cs: seq<Circle>, sqrt: real -> real, skipAdded: bool): seq<nat> {
    if |cs| <= 1 then seq(|cs|, k => k)
    else Sweep(cs, sqrt, skipAdded, 0, InitialPass(|cs|)).kept
  }

  predicate InRange(idx: seq<nat>, n: nat) {
    forall m :: 0 <= m < |idx| ==> idx[m] < n
  }

  predicate Distinct(idx: seq<nat>) {
    forall a, b :: 0 <= a < b < |idx| ==> idx[a] != idx[b]
  }

  function Pick(cs: seq<Circle>, idx: seq<nat>): (r: seq<Circle>)
    requires InRange(idx, |cs|)
    ensures |r| == |idx| && forall m :: 0 <= m < |idx| ==> r[m] == cs[idx[m]]
  {
    seq(|idx|, m requires 0 <= m < |idx| => cs[idx[m]])
  }

  /** The bookkeeping of a pass: `kept` lists distinct indices in range, and
      `added` marks exactly those. */
  predicate Consistent(cs: seq<Circle>, p: Pass) {
    |p.added| == |cs| && InRange(p.kept, |cs|) && Distinct(p.kept) &&
    forall k :: 0 <= k < |cs| ==> (p.added[k] <==> k in p.kept)
  }

  /** Every circle kept so far intersects another circle. */
  ghost predicate Sound(cs: seq<Circle>, sqrt: real -> real, p: Pass)
    requires InRange(p.kept, |cs|)
  {
    forall m :: 0 <= m < |p.kept| ==> HasPartner(cs, sqrt, p.kept[m])
  }

  /** Pushing an index not yet added keeps the bookkeeping consistent. */
  lemma PushConsistent(cs: seq<Circle>, p: Pass, j: nat)
    requires Consistent(cs, p) && j < |cs| && !p.added[j]
    ensures Consistent(cs, Pass(p.added[j := true], p.kept + [j]))
  {
    var q := Pass(p.added[j := true], p.kept + [j]);
    forall k | 0 <= k < |cs|
      ensures q.added[k] <==> k in q.kept
    {
      assert k in q.kept <==> k in p.kept || k == j;
    }
  }

  /** `q` marks at least the circles `p` marks. */
  predicate Grows(p: Pass, q: Pass) {
    |p.added| == |q.added| && forall k :: 0 <= k < |p.added| && p.added[k] ==> q.added[k]
  }

  /** What the inner loop maintains for the outer circle i. */
  ghost predicate ScanInvariant(cs: seq<Circle>, sqrt: real -> real, i: nat, s: Scan) {
    i < |cs| && Consistent(cs, s.pass) && Sound(cs, sqrt, s.pass) && !s.pass.added[i] &&
    (s.hasOverlap ==> HasPartner(cs, sqrt, i))
  }

  /** Pushing a partner of an added circle keeps the kept circles sound. */
  lemma PushSound(cs: seq<Circle>, sqrt: real -> real, p: Pass, j: nat)
    requires Consistent(cs, p) && Sound(cs, sqrt, p) && HasPartner(cs, sqrt, j) && !p.added[j]
    ensures Consistent(cs, Pass(p.added[j := true], p.kept + [j]))
    ensures Sound(cs, sqrt, Pass(p.added[j := true], p.kept + [j]))
  {
    PushConsistent(cs, p, j);
  }

  lemma StepKeeps(cs: seq<Circle>, sqrt: real -> real, skipAdded: bool, i: nat, j: nat, s: Scan)
    requires j < |cs| && ScanInvariant(cs, sqrt, i, s)
    ensures ScanInvariant(cs, sqrt, i, ScanStep(cs, sqrt, skipAdded, i, j, s))
    ensures Grows(s.pass, ScanStep(cs, sqrt, skipAdded, i, j, s).pass)
  {
    if i != j && !(skipAdded && s.pass.added[j]) && cs[i].Intersects(cs[j], sqrt) {
      assert HasPartner(cs, sqrt, i);
      if !s.pass.added[j] {
        IntersectsSymmetric(cs[i], cs[j], sqrt);
        assert HasPartner(cs, sqrt, j);
        PushSound(cs, sqrt, s.pass, j);
      }
    }
  }

  /** The inner loop keeps the bookkeeping consistent and sound, never adds
      circle i itself, only ever adds, and reports an overlap only when
      circle i has a partner. */
  lemma {:induction false} ScanKeeps(cs: seq<Circle>, sqrt: real -> real, skipAdded: bool, i: nat, j: nat, s: Scan)
    requires ScanInvariant(cs, sqrt, i, s)
    ensures ScanInvariant(cs, sqrt, i, ScanFrom(cs, sqrt, skipAdded, i, j, s))
    ensures Grows(s.pass, ScanFrom(cs, sqrt, skipAdded, i, j, s).pass)
    decreases |cs| - j
  {
    if j < |cs| {
      StepKeeps(cs, sqrt, skipAdded, i, j, s);
      ScanKeeps(cs, sqrt, skipAdded, i, j + 1, ScanStep(cs, sqrt, skipAdded, i, j, s));
    }
  }

  /** Without skipping added circles, the inner loop reports an overlap
      exactly when circle i intersects some other circle from j on. */
  lemma {:induction false} ScanFindsPartner(cs: seq<Circle>, sqrt: real -> real, i: nat, j: nat, s: Scan)
    requires i < |cs| && |s.pass.added| == |cs|
    ensures ScanFrom(cs, sqrt, false, i, j, s).hasOverlap <==>
              s.hasOverlap || exists k :: j <= k < |cs| && k != i && cs[i].Intersects(cs[k], sqrt)
    decreases |cs| - j
  {
    if j < |cs| {
      var t := ScanStep(cs, sqrt, false, i, j, s);
      assert t.hasOverlap <==> s.hasOverlap || (i != j && cs[i].Intersects(cs[j], sqrt));
      ScanFindsPartner(cs, sqrt, i, j + 1, t);
      assert forall k :: j <= k < |cs| && k != i && cs[i].Intersects(cs[k], sqrt) ==>
               k == j || j + 1 <= k;
    }
  }

  /** One turn of the outer loop keeps the bookkeeping consistent and sound
      and only adds; without skipping added circles it adds circle i when i
      has a partner. */
  lemma SweepStepKeeps(cs: seq<Circle>, sqrt: real -> real, skipAdded: bool, i: nat, p: Pass)
    requires i < |cs| && Consistent(cs, p) && Sound(cs, sqrt, p)
    ensures Consistent(cs, SweepStep(cs, sqrt, skipAdded, i, p))
    ensures Sound(cs, sqrt, SweepStep(cs, sqrt, skipAdded, i, p))
    ensures Grows(p, SweepStep(cs, sqrt, skipAdded, i, p))
    ensures !skipAdded && HasPartner(cs, sqrt, i) ==> SweepStep(cs, sqrt, skipAdded, i, p).added[i]
  {
    if !p.added[i] {
      var s := ScanFrom(cs, sqrt, skipAdded, i, 0, Scan(p, false));
      ScanKeeps(cs, sqrt, skipAdded, i, 0, Scan(p, false));
      if !skipAdded {
        ScanFindsPartner(cs, sqrt, i, 0, Scan(p, false));
      }
      if s.hasOverlap {
        PushSound(cs, sqrt, s.pass, i);
      }
    }
  }

  /** The outer loop keeps the bookkeeping consistent and sound and only
      ever adds. */
  lemma {:induction false} SweepKeeps(cs: seq<Circle>, sqrt: real -> real, skipAdded: bool, i: nat, p: Pass)
    requires Consistent(cs, p) && Sound(cs, sqrt, p)
    ensures Consistent(cs, Sweep(cs, sqrt, skipAdded, i, p))
    ensures Sound(cs, sqrt, Sweep(cs, sqrt, skipAdded, i, p))
    decreases |cs| - i
  {
    if i < |cs| {
      SweepStepKeeps(cs, sqrt, skipAdded, i, p);
      SweepKeeps(cs, sqrt, skipAdded, i + 1, SweepStep(cs, sqrt, skipAdded, i, p));
    }
  }

  /** Without skipping added circles, every circle with a partner ends up
      added, given that those before i already are. */
  lemma {:induction false} SweepComplete(cs: seq<Circle>, sqrt: real -> real, i: nat, p: Pass)
    requires Consistent(cs, p) && Sound(cs, sqrt, p)
    requires forall k :: 0 <= k < i && k < |cs| && HasPartner(cs, sqrt, k) ==> p.added[k]
    ensures forall k :: 0 <= k < |cs| && HasPartner(cs, sqrt, k) ==> Sweep(cs, sqrt, false, i, p).added[k]
    decreases |cs| - i
  {
    if i < |cs| {
      SweepStepKeeps(cs, sqrt, false, i, p);
      SweepComplete(cs, sqrt, i + 1, SweepStep(cs, sqrt, false, i, p));
    }
  }

  /** Both versions of the filter return distinct circles of the input; a
      list of at most one circle comes back unchanged, and from a longer list
      only circles that intersect another circle are kept. */
  lemma FilterSound(cs: seq<Circle>, sqrt: real -> real, skipAdded: bool)
    ensures var idx := FilterIndices(cs, sqrt, skipAdded);
            InRange(idx, |cs|) && Distinct(idx) &&
            (|cs| <= 1 ==> Pick(cs, idx) == cs) &&
            (|cs| >= 2 ==> forall m :: 0 <= m < |idx| ==> HasPartner(cs, sqrt, idx[m]))
  {
    if |cs| >= 2 {
      SweepKeeps(cs, sqrt, skipAdded, 0, InitialPass(|cs|));
    }
  }

  /** Without skipping added circles, the filter keeps exactly the circles
      that intersect another circle. */
  lemma FilterExact(cs: seq<Circle>, sqrt: real -> real, k: nat)
    requires |cs| >= 2 && k < |cs|
    ensures k in FilterIndices(cs, sqrt, false) <==> HasPartner(cs, sqrt, k)
  {
    SweepKeeps(cs, sqrt, false, 0, InitialPass(|cs|));
    SweepComplete(cs, sqrt, 0, InitialPass(|cs|));
    var r := Sweep(cs, sqrt, false, 0, InitialPass(|cs|));
    if k in r.kept {
      var m :| 0 <= m < |r.kept| && r.kept[m] == k;
    }
  }

  /** Three unit circles in a row, each touching deep into the next: the
      first and second intersect, and so do the second and third, but the
      first and third do not. */
  function Chain(): seq<Circle> {
    [Circle(Vec(0.0, 0.0), 1.0), Circle(Vec(1.5, 0.0), 1.0), Circle(Vec(3.0, 0.0), 1.0)]
  }

  lemma ChainOverlaps(sqrt: real -> real)
    requires IsSqrt(sqrt)
    ensures Chain()[0].Intersects(Chain()[1], sqrt) && Chain()[1].Intersects(Chain()[0], sqrt)
    ensures Chain()[1].Intersects(Chain()[2], sqrt) && Chain()[2].Intersects(Chain()[1], sqrt)
    ensures !Chain()[0].Intersects(Chain()[2], sqrt) && !Chain()[2].Intersects(Chain()[0], sqrt)
  {
    SqrtOfSquare(sqrt, 2.25, 1.5);
    SqrtOfSquare(sqrt, 9.0, 3.0);
  }

  /** As written, the filter drops the third circle of the chain although it
      intersects the second: by the time the outer loop reaches it, its only
      partner is already added and the inner loop skips it. */
  lemma ChainDropsThird(sqrt: real -> real)
    requires IsSqrt(sqrt)
    ensures HasPartner(Chain(), sqrt, 2)
    ensures FilterIndices(Chain(), sqrt, true) == [1, 0]
    ensures FilterIndices(Chain(), sqrt, false) == [1, 0, 2]
  {
    var cs := Chain();
    ChainOverlaps(sqrt);
    var p0 := InitialPass(3);
    assert p0.added == [false, false, false];
    var afterB := Scan(Pass([false, true, false], [1]), true);
    assert ScanFrom(cs, sqrt, true, 0, 0, Scan(p0, false)) == afterB by {
      assert ScanFrom(cs, sqrt, true, 0, 2, afterB) == afterB;
    }
    assert ScanFrom(cs, sqrt, false, 0, 0, Scan(p0, false)) == afterB by {
      assert ScanFrom(cs, sqrt, false, 0, 2, afterB) == afterB;
    }
    var p1 := Pass([true, true, false], [1, 0]);
    assert Sweep(cs, sqrt, true, 0, p0) == Sweep(cs, sqrt, true, 2, p1);
    assert Sweep(cs, sqrt, false, 0, p0) == Sweep(cs, sqrt, false, 2, p1);
    assert ScanFrom(cs, sqrt, true, 2, 0, Scan(p1, false)) == Scan(p1, false);
    var found := Scan(p1, true);
    assert ScanFrom(cs, sqrt, false, 2, 0, Scan(p1, false)) == found by {
      assert ScanFrom(cs, sqrt, false, 2, 1, Scan(p1, false)) == ScanFrom(cs, sqrt, false, 2, 2, found);
    }
  }

  // ---------------------------------------------------------------------
  // Areas
  // ---------------------------------------------------------------------

  /** The areas of the first k circles, summed from the left. */
  function PrefixArea(cs: seq<Circle>, k: nat): real
    requires k <= |cs|
  {
    if k == 0 then 0.0 else PrefixArea(cs, k - 1) + cs[k - 1].Area()
  }

  lemma AreaNonNegative(c: Circle)
    ensures c.Area() >= 0.0
  {
    SquareNonNegative(c.r, c.r * c.r);
    assert c.Area() == PI * (c.r * c.r);
  }

  /** Prefix sums of areas never decrease and are never negative. */
  lemma {:induction false} PrefixAreaMonotone(cs: seq<Circle>, j: nat, k: nat)
    requires j <= k <= |cs|
    ensures 0.0 <= PrefixArea(cs, j) <= PrefixArea(cs, k)
    decreases k
  {
    if j < k {
      PrefixAreaMonotone(cs, j, k - 1);
      AreaNonNegative(cs[k - 1]);
    } else if k > 0 {
      PrefixAreaMonotone(cs, 0, k - 1);
      AreaNonNegative(cs[k - 1]);
    }
  }

  /** For a random value u in [0, 1] the cumulative areas reach u times the
      total at the latest with the last circle, so the weighted pick never
      needs its fall-back. */
  lemma PickAlwaysReaches(cs: seq<Circle>, u: real)
    requires 0.0 <= u <= 1.0 && |cs| >= 1
    ensures PrefixArea(cs, |cs|) >= u * PrefixArea(cs, |cs|)
  {
    var total := PrefixArea(cs, |cs|);
    PrefixAreaMonotone(cs, |cs|, |cs|);
    assert total - u * total == (1.0 - u) * total;
    SquareNonNegative(0.0, 0.0);
    if u < 1.0 && total > 0.0 {
      ProductPositive(1.0 - u, total, (1.0 - u) * total);
    }
  }

  /** Circles chosen with probability proportional to their area. */
  class CircleUnion {
    var circles: seq<Circle>

    /** Keeps the circles filterOverlappingCircles returns, skip of added
        circles included: distinct circles that each intersect another one
        (all of them when there is at most one), see FilterSound. */
    constructor (cs: seq<Circle>, sqrt: real -> real)
      ensures InRange(FilterIndices(cs, sqrt, true), |cs|)
      ensures circles == Pick(cs, FilterIndices(cs, sqrt, true))
    {
      var kept := FilterOverlappingCircles(cs, sqrt, true);
      circles := kept;
    }

    /** Some circle of the union contains q. */
    method Contains(q: Vec) returns (b: bool)
      ensures b <==> exists k :: 0 <= k < |circles| && circles[k].Contains(q)
    {
      var k := 0;
      while k < |circles|
        invariant 0 <= k <= |circles|
        invariant forall m :: 0 <= m < k ==> !circles[m].Contains(q)
      {
        if circles[k].Contains(q) {
          return true;
        }
        k := k + 1;
      }
      return false;
    }

    /** The sum of the areas of the circles. */
    method TotalArea() returns (area: real)
      ensures area == PrefixArea(circles, |circles|) && area >= 0.0
    {
      area := 0.0;
      var k := 0;
      while k < |circles|
        invariant 0 <= k <= |circles|
        invariant area == PrefixArea(circles, k)
      {
        area := area + PI * circles[k].r * circles[k].r;
        k := k + 1;
      }
      PrefixAreaMonotone(circles, |circles|, |circles|);
    }

    /** The circle `randomPoint` samples from, for the random value u: an
        error for an empty union, the only circle of a single one, and
        otherwise the first circle whose cumulative area reaches u times the
        total area (the last circle when none does). */
    method PickCircle(u: real) returns (r: Result<nat>)
      ensures |circles| == 0 <==> r.Err?
      ensures |circles| == 1 ==> r == Ok(0)
      ensures |circles| >= 2 ==> r.Ok? && r.value < |circles|
      ensures |circles| >= 2 ==>
                forall k :: 1 <= k <= r.value ==> PrefixArea(circles, k) < u * PrefixArea(circles, |circles|)
      ensures |circles| >= 2 ==>
                PrefixArea(circles, r.value + 1) >= u * PrefixArea(circles, |circles|) || r.value == |circles| - 1
    {
      if |circles| == 0 {
        return Err("Cannot generate a random point from an empty CircleUnion.");
      }
      if |circles| == 1 {
        return Ok(0);
      }
      var cs := circles;
      var areas := seq(|cs|, k requires 0 <= k < |cs| => cs[k].Area());
      var totalArea := SumAreas(cs, areas);
      var i := FirstReaching(cs, areas, u * totalArea);
      return Ok(i);
    }
  }

  /** The first loop of the pick: the areas summed in order. */
  method SumAreas(cs: seq<Circle>, areas: seq<real>) returns (total: real)
    requires |areas| == |cs| && forall k :: 0 <= k < |cs| ==> areas[k] == cs[k].Area()
    ensures total == PrefixArea(cs, |cs|)
  {
    total := 0.0;
    var k := 0;
    while k < |areas|
      invariant 0 <= k <= |areas|
      invariant total == PrefixArea(cs, k)
    {
      total := total + areas[k];
      k := k + 1;
    }
  }

  /** The second loop of the pick: subtracts the areas in order from
      `target` and stops at the first circle that brings it to zero or
      below; the last circle when none does. */
  method FirstReaching(cs: seq<Circle>, areas: seq<real>, target: real) returns (i: nat)
    requires |areas| == |cs| >= 1 && forall k :: 0 <= k < |cs| ==> areas[k] == cs[k].Area()
    ensures i < |cs|
    ensures forall k :: 1 <= k <= i ==> PrefixArea(cs, k) < target
    ensures PrefixArea(cs, i + 1) >= target || i == |cs| - 1
  {
    var randomArea := target;
    i := 0;
    while i < |cs|
      invariant 0 <= i <= |cs|
      invariant randomArea == target - PrefixArea(cs, i)
      invariant forall m :: 1 <= m <= i ==> PrefixArea(cs, m) < target
    {
      randomArea := randomArea - areas[i];
      if randomArea <= 0.0 {
        return i;
      }
      i := i + 1;
    }
    return |cs| - 1;
  }

  /** filterOverlappingCircles: the outer loop over an `added` array,
      pushing circles into the output as they are found. */
  method FilterOverlappingCircles(cs: seq<Circle>, sqrt: real -> real, skipAdded: bool)
    returns (out: seq<Circle>)
    ensures InRange(FilterIndices(cs, sqrt, skipAdded), |cs|)
    ensures out == Pick(cs, FilterIndices(cs, sqrt, skipAdded))
  {
    var n := |cs|;
    FilterSound(cs, sqrt, skipAdded);
    if n <= 1 {
      return cs;
    }
    var added := new bool[n](_ => false);
    ghost var kept: seq<nat> := [];
    out := [];
    assert added[..] == InitialPass(n).added;
    var i := 0;
    while i < n
      invariant 0 <= i <= n && added.Length == n
      invariant InRange(kept, n) && out == Pick(cs, kept)
      invariant Sweep(cs, sqrt, skipAdded, i, Pass(added[..], kept)) ==
                Sweep(cs, sqrt, skipAdded, 0, InitialPass(n))
    {
      ghost var before := Pass(added[..], kept);
      if !added[i] {
        var hasOverlap;
        hasOverlap, out, kept := ScanCircle(cs, sqrt, skipAdded, i, added, out, kept);
        if hasOverlap {
          out := out + [cs[i]];
          kept := kept + [i];
          added[i] := true;
        }
      }
      assert Pass(added[..], kept) == SweepStep(cs, sqrt, skipAdded, i, before);
      i := i + 1;
    }
  }

  /** The inner loop of filterOverlappingCircles for circle i: pushes every
      partner of i not yet added and reports whether i has any. */
  method ScanCircle(cs: seq<Circle>, sqrt: real -> real, skipAdded: bool, i: nat, added: array<bool>,
                    out0: seq<Circle>, ghost kept0: seq<nat>)
    returns (hasOverlap: bool, out: seq<Circle>, ghost kept: seq<nat>)
    requires i < |cs| == added.Length && InRange(kept0, |cs|) && out0 == Pick(cs, kept0)
    modifies added
    ensures InRange(kept, |cs|) && out == Pick(cs, kept)
    ensures Scan(Pass(added[..], kept), hasOverlap) ==
            ScanFrom(cs, sqrt, skipAdded, i, 0, Scan(Pass(old(added[..]), kept0), false))
  {
    hasOverlap := false;
    out := out0;
    kept := kept0;
    var j := 0;
    while j < |cs|
      invariant 0 <= j <= |cs|
      invariant InRange(kept, |cs|) && out == Pick(cs, kept)
      invariant ScanFrom(cs, sqrt, skipAdded, i, j, Scan(Pass(added[..], kept), hasOverlap)) ==
                ScanFrom(cs, sqrt, skipAdded, i, 0, Scan(Pass(old(added[..]), kept0), false))
    {
      ghost var cur := Scan(Pass(added[..], kept), hasOverlap);
      if !(i == j || (skipAdded && added[j])) {
        if cs[i].Intersects(cs[j], sqrt) {
          hasOverlap := true;
          if !added[j] {
            out := out + [cs[j]];
            kept := kept + [j];
            added[j] := true;
          }
        }
      }
      assert Scan(Pass(added[..], kept), hasOverlap) == ScanStep(cs, sqrt, skipAdded, i, j, cur);
      j := j + 1;
    }
  }
}
