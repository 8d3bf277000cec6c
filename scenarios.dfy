/**
  A worked example of the evaluator: a background view made of a single cell
  covering the unit cube, with value 0.05 everywhere in it.
 */
module Scenarios {
  import opened Wrappers
  import opened Probes
  import opened BGMesh

  /** The octree over the one-cell view. */
  function UnitCell(q: Point): Option<real>
  {
    if 0.0 <= q.x <= 1.0 && 0.0 <= q.y <= 1.0 && 0.0 <= q.z <= 1.0 then Some(0.05) else None
  }

  /** A point inside the cell is answered by the direct lookup. */
  lemma InsideCell(lcFactor: real, bgmMax: real, lc: real, cos: real -> real)
    ensures CharLength(Session(Some(Octree(UnitCell)), bgmMax, lc, lcFactor), Bgm(OnFile, 0.0), Point(0.5, 0.5, 0.5), cos)
            == lcFactor * 0.05
  {
    DirectHit(Session(Some(Octree(UnitCell)), bgmMax, lc, lcFactor), Bgm(OnFile, 0.0), Point(0.5, 0.5, 0.5), cos, 0.05);
  }

  /** Every probe at the offsets 0.01 to 0.25 misses the cell. */
  lemma SmallOffsetMisses(i: nat, j: nat)
    requires i < 6 && j < |Directions|
    ensures UnitCell(Shift(Point(1.5, 0.5, 0.5), Directions[j], 10.0 * Fact[i])).None?
  {
    var p := Point(1.5, 0.5, 0.5);
    assert Fact[i] <= 0.025;
    ShiftWithin(p, Directions[j], 10.0 * Fact[i]);
  }

  /**
    With reference length 10, the point (1.5, 0.5, 0.5) lies half a unit
    outside the cell. Offsets 0.01 to 0.25 all miss; at offset 0.5 the +x
    probe misses and the -x probe lands on the cell's face, so the cell's
    value is used rather than the recorded maximum, after 87 queries.
   */
  lemma OutsideCell(lcFactor: real, bgmMax: real, cos: real -> real)
    ensures var s := Session(Some(Octree(UnitCell)), bgmMax, 10.0, lcFactor);
            CharLength(s, Bgm(OnFile, 0.0), Point(1.5, 0.5, 0.5), cos) == lcFactor * 0.05 &&
            QueryCount(s, Bgm(OnFile, 0.0), Point(1.5, 0.5, 0.5)) == 87
  {
    var p := Point(1.5, 0.5, 0.5);
    forall i0, j0 | 0 <= i0 < |Fact| && 0 <= j0 < |Directions| && 14 * i0 + j0 < 14 * 6 + 1
      ensures UnitCell(Shift(p, Directions[j0], 10.0 * Fact[i0])).None?
    {
      if i0 < 6 {
        SmallOffsetMisses(i0, j0);
      }
    }
    assert Shift(p, Directions[1], 10.0 * Fact[6]) == Point(1.0, 0.5, 0.5);
    ProbeHit(Session(Some(Octree(UnitCell)), bgmMax, 10.0, lcFactor), Bgm(OnFile, 0.0), p, cos, 6, 1, 0.05);
  }
}
