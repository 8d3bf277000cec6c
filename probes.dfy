/**
  The perturbation search that the characteristic-length evaluator runs when
  a point cannot be located in the background mesh: nine offsets of
  increasing size, and for each offset fourteen probe points around the
  point, six axis neighbours first and then the eight corners of the cube.
  The search sequence is an explicit table here; the first probe that the
  point-location oracle answers wins.
 */
module Probes {
  import opened Wrappers

  datatype Point = Point(x: real, y: real, z: real)

  /** How one coordinate of a probe is displaced: by -eps, not at all, or by +eps. */
  datatype Sign = Neg | Zero | Pos

  datatype Direction = Direction(sx: Sign, sy: Sign, sz: Sign)

  /** The point-location oracle: the interpolated value at a point, or None when no cell holds it. */
  type Search = Point -> Option<real>

  /** The offset factors, relative to the global reference length. */
  const Fact: seq<real> := [0.001, 0.0025, 0.005, 0.0075, 0.01, 0.025, 0.05, 0.075, 0.1]

  /** The probe directions for one offset, in the order they are tried. */
  const Directions: seq<Direction> := [
    // axis neighbours: +x, -x, +y, -y, +z, -z
    Direction(Pos, Zero, Zero), Direction(Neg, Zero, Zero),
    Direction(Zero, Pos, Zero), Direction(Zero, Neg, Zero),
    Direction(Zero, Zero, Pos), Direction(Zero, Zero, Neg),
    // cube corners, lower z face first
    Direction(Pos, Neg, Neg), Direction(Pos, Pos, Neg),
    Direction(Neg, Neg, Neg), Direction(Neg, Pos, Neg),
    Direction(Pos, Neg, Pos), Direction(Pos, Pos, Pos),
    Direction(Neg, Neg, Pos), Direction(Neg, Pos, Pos)
  ]

  /** Number of perturbed probes in a full search: 9 offsets times 14 directions. */
  const SearchLength: nat := 126

  function Displace(c: real, s: Sign, eps: real): real
  {
    match s
    case Neg => c - eps
    case Zero => c
    case Pos => c + eps
  }

  function Shift(p: Point, d: Direction, eps: real): Point
  {
    Point(Displace(p.x, d.sx, eps), Displace(p.y, d.sy, eps), Displace(p.z, d.sz, eps))
  }

  /** The largest coordinate difference between two points (Chebyshev distance). */
  function MaxNormDist(p: Point, q: Point): real
  {
    Max(Abs(p.x - q.x), Max(Abs(p.y - q.y), Abs(p.z - q.z)))
  }

  function Abs(r: real): real { if r < 0.0 then -r else r }

  function Max(a: real, b: real): real { if a < b then b else a }

  predicate IsAxis(d: Direction)
  {
    (d.sx != Zero && d.sy == Zero && d.sz == Zero) ||
    (d.sx == Zero && d.sy != Zero && d.sz == Zero) ||
    (d.sx == Zero && d.sy == Zero && d.sz != Zero)
  }

  predicate IsCorner(d: Direction)
  {
    d.sx != Zero && d.sy != Zero && d.sz != Zero
  }

  /** The fourteen probe points at offset eps around p, in search order. */
  function Ring(p: Point, eps: real): seq<Point>
  {
    seq(|Directions|, j requires 0 <= j < |Directions| => Shift(p, Directions[j], eps))
  }

  /** The nine offsets actually tried: the factors scaled by the reference length lc. */
  function Offsets(lc: real): (offsets: seq<real>)
    ensures |offsets| == |Fact|
    ensures lc > 0.0 ==> forall i, j :: 0 <= i < j < |offsets| ==> offsets[i] < offsets[j]
  {
    seq(|Fact|, i requires 0 <= i < |Fact| => lc * Fact[i])
  }

  /** The rings of probes for the given offsets, offset by offset. */
  function ProbesFor(p: Point, offsets: seq<real>): seq<Point>
    decreases |offsets|
  {
    if offsets == [] then [] else Ring(p, offsets[0]) + ProbesFor(p, offsets[1..])
  }

  /** The whole perturbation sequence around p. */
  function ProbeSequence(p: Point, lc: real): (probes: seq<Point>)
    ensures |probes| == SearchLength
  {
    ProbesForLength(p, Offsets(lc));
    ProbesFor(p, Offsets(lc))
  }

  /**
    The index of the first point of pts that the oracle locates, or |pts|
    when it locates none of them.
   */
  function FirstHitIndex(search: Search, pts: seq<Point>): (k: nat)
    ensures k <= |pts|
    ensures forall i :: 0 <= i < k ==> search(pts[i]).None?
    ensures k < |pts| ==> search(pts[k]).Some?
    decreases |pts|
  {
    if pts == [] then 0
    else if search(pts[0]).Some? then 0
    else 1 + FirstHitIndex(search, pts[1..])
  }

  /** The value found by the first successful probe of pts, if any. */
  function FirstHit(search: Search, pts: seq<Point>): Option<real>
  {
    var k := FirstHitIndex(search, pts);
    if k < |pts| then search(pts[k]) else None
  }

  /** Direct lookup at p, then, on a miss, the perturbation search around it. */
  function Locate(search: Search, p: Point, lc: real): Option<real>
  {
    if search(p).Some? then search(p) else FirstHit(search, ProbeSequence(p, lc))
  }

  /** How many oracle queries Locate makes before it stops. */
  function Lookups(search: Search, p: Point, lc: real): (n: nat)
    ensures 1 <= n <= SearchLength + 1
    ensures search(p).Some? <==> n == 1
  {
    if search(p).Some? then 1
    else
      var k := FirstHitIndex(search, ProbeSequence(p, lc));
      if k < SearchLength then k + 2 else SearchLength + 1
  }

  // ---------------------------------------------------------------------
  // The tables

  /** The offset factors grow strictly and lie between 0.001 and 0.1. */
  lemma FactStrictlyIncreasing(i: nat, j: nat)
    requires i < j < |Fact|
    ensures 0.001 <= Fact[i] < Fact[j] <= 0.1
  {
  }

  /** The first six directions are the axis neighbours, the last eight the cube corners. */
  lemma DirectionsShape(j: nat)
    requires j < |Directions|
    ensures |Directions| == 14
    ensures j < 6 ==> IsAxis(Directions[j])
    ensures 6 <= j ==> IsCorner(Directions[j])
  {
  }

  /** No direction is tried twice for the same offset. */
  lemma DirectionsDistinct(i: nat, j: nat)
    requires i < j < |Directions|
    ensures Directions[i] != Directions[j]
  {
  }

  /** Every probe at offset eps > 0 lies at max-norm distance exactly eps from p. */
  lemma ShiftDistance(p: Point, d: Direction, eps: real)
    requires eps > 0.0
    requires IsAxis(d) || IsCorner(d)
    ensures MaxNormDist(Shift(p, d, eps), p) == eps
  {
  }

  /** A probe moves each coordinate of p by at most its offset. */
  lemma ShiftWithin(p: Point, d: Direction, eps: real)
    requires eps >= 0.0
    ensures p.x - eps <= Shift(p, d, eps).x <= p.x + eps
    ensures p.y - eps <= Shift(p, d, eps).y <= p.y + eps
    ensures p.z - eps <= Shift(p, d, eps).z <= p.z + eps
  {
  }

  // ---------------------------------------------------------------------
  // The search sequence

  /** Entry 14*i+j of the probes is direction j at offset offsets[i]. */
  lemma {:induction false} ProbesForAt(p: Point, offsets: seq<real>, i: nat, j: nat)
    requires i < |offsets| && j < |Directions|
    ensures |ProbesFor(p, offsets)| == 14 * |offsets|
    ensures ProbesFor(p, offsets)[14 * i + j] == Shift(p, Directions[j], offsets[i])
    decreases |offsets|
  {
    ProbesForLength(p, offsets);
    var ring, rest := Ring(p, offsets[0]), ProbesFor(p, offsets[1..]);
    assert ProbesFor(p, offsets) == ring + rest;
    if i == 0 {
      assert (ring + rest)[j] == ring[j];
    } else {
      ProbesForAt(p, offsets[1..], i - 1, j);
      assert offsets[1..][i - 1] == offsets[i];
      assert (ring + rest)[14 * i + j] == rest[14 * (i - 1) + j];
    }
  }

  lemma {:induction false} ProbesForLength(p: Point, offsets: seq<real>)
    ensures |ProbesFor(p, offsets)| == 14 * |offsets|
    decreases |offsets|
  {
    if offsets != [] {
      ProbesForLength(p, offsets[1..]);
    }
  }

  /**
    The perturbation sequence holds 126 probes; probe 14*i+j is direction j
    of the table at offset lc*Fact[i], so all probes of a smaller offset come
    before those of a larger one.
   */
  lemma ProbeSequenceAt(p: Point, lc: real, i: nat, j: nat)
    requires i < |Fact| && j < |Directions|
    ensures |ProbeSequence(p, lc)| == SearchLength
    ensures ProbeSequence(p, lc)[14 * i + j] == Shift(p, Directions[j], lc * Fact[i])
  {
    ProbesForAt(p, Offsets(lc), i, j);
  }

  /** Probe k of the sequence is direction k % 14 at offset index k / 14. */
  lemma ProbeAtIndex(p: Point, lc: real, k: nat)
    requires k < SearchLength
    ensures k / 14 < |Fact| && k % 14 < |Directions|
    ensures |ProbeSequence(p, lc)| == SearchLength
    ensures ProbeSequence(p, lc)[k] == Shift(p, Directions[k % 14], lc * Fact[k / 14])
    ensures k == 14 * (k / 14) + k % 14
  {
    ProbeSequenceAt(p, lc, k / 14, k % 14);
  }

  // ---------------------------------------------------------------------
  // First match wins

  /** FirstHit yields v exactly when some probe yields v and every earlier probe misses. */
  lemma FirstHitIsFirstMatch(search: Search, pts: seq<Point>, k: nat, v: real)
    requires k < |pts|
    ensures (FirstHit(search, pts) == Some(v) && FirstHitIndex(search, pts) == k) <==>
            (search(pts[k]) == Some(v) && forall i :: 0 <= i < k ==> search(pts[i]).None?)
  {
    var f := FirstHitIndex(search, pts);
    if search(pts[k]) == Some(v) && forall i :: 0 <= i < k ==> search(pts[i]).None? {
      assert f == k;
    }
  }

  /** FirstHit finds nothing exactly when every probe misses. */
  lemma FirstHitNone(search: Search, pts: seq<Point>)
    ensures FirstHit(search, pts).None? <==> forall i :: 0 <= i < |pts| ==> search(pts[i]).None?
  {
  }

  /**
    When the direct lookup misses and probe j at offset index i succeeds, the
    value used comes from a probe no later in the search order, which for
    a positive reference length is at an offset no larger than lc*Fact[i].
   */
  lemma SmallerOffsetWins(search: Search, p: Point, lc: real, i: nat, j: nat)
    requires i < |Fact| && j < |Directions|
    requires search(p).None?
    requires search(Shift(p, Directions[j], lc * Fact[i])).Some?
    ensures Locate(search, p, lc).Some?
    ensures FirstHitIndex(search, ProbeSequence(p, lc)) <= 14 * i + j
    ensures FirstHitIndex(search, ProbeSequence(p, lc)) / 14 <= i
    ensures lc > 0.0 ==> lc * Fact[FirstHitIndex(search, ProbeSequence(p, lc)) / 14] <= lc * Fact[i]
    ensures var k := FirstHitIndex(search, ProbeSequence(p, lc));
            Locate(search, p, lc) == search(Shift(p, Directions[k % 14], lc * Fact[k / 14]))
  {
    var pts := ProbeSequence(p, lc);
    ProbeSequenceAt(p, lc, i, j);
    var k := FirstHitIndex(search, pts);
    assert search(pts[14 * i + j]).Some?;
    ProbeAtIndex(p, lc, k);
    var i0 := k / 14;
    assert i0 <= i;
    if i0 < i {
      FactStrictlyIncreasing(i0, i);
    }
  }

  /**
    After a direct miss, when probe j at offset index i succeeds and every
    probe before it in the search order misses, its value is the one used,
    and the search stops after 14*i+j+2 queries.
   */
  lemma FirstProbeWins(search: Search, p: Point, lc: real, i: nat, j: nat)
    requires i < |Fact| && j < |Directions|
    requires search(p).None?
    requires search(Shift(p, Directions[j], lc * Fact[i])).Some?
    requires forall i0, j0 :: 0 <= i0 < |Fact| && 0 <= j0 < |Directions| && 14 * i0 + j0 < 14 * i + j ==>
               search(Shift(p, Directions[j0], lc * Fact[i0])).None?
    ensures FirstHitIndex(search, ProbeSequence(p, lc)) == 14 * i + j
    ensures Locate(search, p, lc) == search(Shift(p, Directions[j], lc * Fact[i]))
    ensures Lookups(search, p, lc) == 14 * i + j + 2
  {
    var pts := ProbeSequence(p, lc);
    ProbeSequenceAt(p, lc, i, j);
    forall k | 0 <= k < 14 * i + j
      ensures search(pts[k]).None?
    {
      ProbeAtIndex(p, lc, k);
    }
    FirstHitIsFirstMatch(search, pts, 14 * i + j, search(pts[14 * i + j]).value);
  }

  /**
    Conversely, when the value used comes from probe j at offset index i,
    that probe succeeded and every probe before it in the search order missed.
   */
  lemma OnlyFirstProbeWins(search: Search, p: Point, lc: real, i: nat, j: nat)
    requires i < |Fact| && j < |Directions|
    requires FirstHitIndex(search, ProbeSequence(p, lc)) == 14 * i + j
    ensures search(Shift(p, Directions[j], lc * Fact[i])).Some?
    ensures forall i0, j0 :: 0 <= i0 < |Fact| && 0 <= j0 < |Directions| && 14 * i0 + j0 < 14 * i + j ==>
              search(Shift(p, Directions[j0], lc * Fact[i0])).None?
  {
    ProbeSequenceAt(p, lc, i, j);
    forall i0, j0 | 0 <= i0 < |Fact| && 0 <= j0 < |Directions| && 14 * i0 + j0 < 14 * i + j
      ensures search(Shift(p, Directions[j0], lc * Fact[i0])).None?
    {
      ProbeSequenceAt(p, lc, i0, j0);
    }
  }

  /**
    One step of the search: when no probe before probe j at offset index i
    has succeeded, that probe either ends the search with its value after
    14*i+j+2 queries, or the search goes on past it.
   */
  lemma ProbeStep(search: Search, p: Point, lc: real, i: nat, j: nat)
    requires i < |Fact| && j < |Directions|
    requires search(p).None?
    requires 14 * i + j <= FirstHitIndex(search, ProbeSequence(p, lc))
    ensures var h := search(Shift(p, Directions[j], lc * Fact[i]));
            if h.Some? then Locate(search, p, lc) == h && Lookups(search, p, lc) == 14 * i + j + 2
            else 14 * i + j + 1 <= FirstHitIndex(search, ProbeSequence(p, lc))
  {
    var pts := ProbeSequence(p, lc);
    ProbeSequenceAt(p, lc, i, j);
    assert pts[14 * i + j] == Shift(p, Directions[j], lc * Fact[i]);
  }

  /** A search that gets past all 126 probes finds nothing, after 127 queries. */
  lemma SearchEnd(search: Search, p: Point, lc: real)
    requires search(p).None?
    requires SearchLength <= FirstHitIndex(search, ProbeSequence(p, lc))
    ensures Locate(search, p, lc).None?
    ensures Lookups(search, p, lc) == SearchLength + 1
  {
    ProbeSequenceAt(p, lc, 0, 0);
  }

  /** When the direct lookup and every probe miss, nothing is found, after 127 queries. */
  lemma NothingFound(search: Search, p: Point, lc: real)
    requires search(p).None?
    requires forall i0, j0 :: 0 <= i0 < |Fact| && 0 <= j0 < |Directions| ==>
               search(Shift(p, Directions[j0], lc * Fact[i0])).None?
    ensures Locate(search, p, lc).None?
    ensures Lookups(search, p, lc) == SearchLength + 1
  {
    var pts := ProbeSequence(p, lc);
    ProbeSequenceAt(p, lc, 0, 0);
    forall k | 0 <= k < |pts|
      ensures search(pts[k]).None?
    {
      ProbeAtIndex(p, lc, k);
    }
    FirstHitNone(search, pts);
  }
}
