/**
  The characteristic-length evaluator of the 3D mesher: for a point it
  returns the target element size, taken from the mesh's background
  description (an analytic test function, a constant, or a post-processing
  view located through an octree), floored when it is not positive and
  scaled by the global length factor.
 */
module BGMesh {
  import opened Wrappers
  import opened Probes

  /**
    The kinds of background mesh a mesh may carry. The type code is a plain
    integer in the mesh record; Other stands for any value that is none of
    the four named ones, which the switch of the evaluator does not handle.
   */
  datatype BgmType = Function | Constant | OnFile | WithPoints | Other

  /** A mesh's background description: its kind and, for Constant, its length. */
  datatype Bgm = Bgm(typ: BgmType, lc: real)

  /** The point-location index built over a post-processing view. */
  datatype Octree = Octree(search: Search)

  /**
    A post-processing view: its scalar field, interpolated at a point that
    lies in one of its elements (None elsewhere), and its largest value.
   */
  datatype PostView = PostView(field: Search, max: real)

  /** The diagnostics the evaluator raises. */
  datatype Message = Error | Warning(at: Point)

  /**
    The state the evaluator reads: the current octree (absent until a view
    has been installed), the recorded maximum of that view, the global
    reference length and the global length factor.
   */
  datatype Session = Session(octree: Option<Octree>, bgmMax: real, lc: real, lcFactor: real)

  /** The source approximates pi by this constant. */
  const Pi: real := 3.14159

  /**
    The analytic test field; cos is the cosine of the C library, which this
    model takes as a parameter.
   */
  function AnalyticLength(p: Point, cos: real -> real): (l: real)
    ensures l >= 0.01
    ensures -1.0 <= cos(2.0 * Pi * p.x) <= 1.0 && -1.0 <= cos(2.0 * Pi * p.y) <= 1.0 ==> l <= 0.11
  {
    var c := cos(2.0 * Pi * p.x) * cos(2.0 * Pi * p.y);
    assert -1.0 <= cos(2.0 * Pi * p.x) <= 1.0 && -1.0 <= cos(2.0 * Pi * p.y) <= 1.0 ==> Abs(c) <= 1.0 by {
      if -1.0 <= cos(2.0 * Pi * p.x) <= 1.0 && -1.0 <= cos(2.0 * Pi * p.y) <= 1.0 {
        ProductBounded(cos(2.0 * Pi * p.x), cos(2.0 * Pi * p.y));
      }
    }
    0.1 * Abs(c) + 0.01
  }

  lemma ProductBounded(a: real, b: real)
    requires -1.0 <= a <= 1.0 && -1.0 <= b <= 1.0
    ensures -1.0 <= a * b <= 1.0
  {
    if a >= 0.0 && b >= 0.0 {
      assert a * b <= 1.0 * b;
    } else if a >= 0.0 {
      assert a * b >= a * -1.0;
    } else if b >= 0.0 {
      assert a * b >= -1.0 * b;
    } else {
      assert a * b <= -1.0 * b;
    }
  }

  /** The ONFILE case: the located value, or the recorded maximum when it is missing or not positive. */
  function OnFileLength(search: Search, bgmMax: real, lc: real, p: Point): (l: real)
    ensures l > 0.0 || l == bgmMax
    ensures l != bgmMax ==> Locate(search, p, lc) == Some(l)
  {
    var l := match Locate(search, p, lc) case Some(v) => v case None => 0.0;
    if l <= 0.0 then bgmMax else l
  }

  /** The length chosen by the switch on the background type, before the floor. */
  function RawLength(s: Session, m: Bgm, p: Point, cos: real -> real): (l: real)
    requires m.typ == OnFile ==> s.octree.Some?
    ensures l <= 0.0 ==> m.typ == Constant || m.typ == OnFile || m.typ == Other
  {
    match m.typ
    case Function => AnalyticLength(p, cos)
    case Constant => m.lc
    case OnFile => OnFileLength(s.octree.value.search, s.bgmMax, s.lc, p)
    case WithPoints => 1.0
    case Other => 0.0
  }

  /** A non-positive length is replaced by a tenth of the reference length. */
  function Floor(l: real, lc: real): (r: real)
    ensures l > 0.0 ==> r == l
    ensures l <= 0.0 ==> r == lc / 10.0
    ensures lc > 0.0 ==> r > 0.0
  {
    if l <= 0.0 then lc / 10.0 else l
  }

  /** The value returned by the evaluator at p. */
  function CharLength(s: Session, m: Bgm, p: Point, cos: real -> real): real
    requires m.typ == OnFile ==> s.octree.Some?
  {
    s.lcFactor * Floor(RawLength(s, m, p, cos), s.lc)
  }

  /** The diagnostics raised while evaluating at p, in order. */
  function Messages(s: Session, m: Bgm, p: Point, cos: real -> real): (msgs: seq<Message>)
    requires m.typ == OnFile ==> s.octree.Some?
    ensures Error in msgs <==> m.typ == WithPoints
    ensures |msgs| <= 2
  {
    (if m.typ == WithPoints then [Error] else []) +
    (if RawLength(s, m, p, cos) <= 0.0 then [Warning(p)] else [])
  }

  /** The number of octree queries made while evaluating at p. */
  function QueryCount(s: Session, m: Bgm, p: Point): (n: nat)
    requires m.typ == OnFile ==> s.octree.Some?
    ensures n == 0 <==> m.typ != OnFile
    ensures n <= SearchLength + 1
  {
    if m.typ == OnFile then Lookups(s.octree.value.search, p, s.lc) else 0
  }

  // ---------------------------------------------------------------------
  // Properties of the evaluator

  /** With a positive reference length and factor the result is strictly positive. */
  lemma CharLengthPositive(s: Session, m: Bgm, p: Point, cos: real -> real)
    requires m.typ == OnFile ==> s.octree.Some?
    requires s.lc > 0.0 && s.lcFactor > 0.0
    ensures CharLength(s, m, p, cos) > 0.0
  {
    var l := Floor(RawLength(s, m, p, cos), s.lc);
    assert l > 0.0;
    assert s.lcFactor * l > 0.0;
  }

  /** A warning is raised exactly when the floor replaces the length. */
  lemma WarningIffFloored(s: Session, m: Bgm, p: Point, cos: real -> real)
    requires m.typ == OnFile ==> s.octree.Some?
    ensures Warning(p) in Messages(s, m, p, cos) <==> RawLength(s, m, p, cos) <= 0.0
    ensures RawLength(s, m, p, cos) <= 0.0 ==> CharLength(s, m, p, cos) == s.lcFactor * (s.lc / 10.0)
  {
    if Warning(p) in Messages(s, m, p, cos) {
      assert Warning(p) !in (if m.typ == WithPoints then [Error] else []);
    }
  }

  /** A positive value found by the direct lookup or by the probe search is used as is. */
  lemma LocatedPositive(s: Session, m: Bgm, p: Point, cos: real -> real, v: real)
    requires m.typ == OnFile && s.octree.Some?
    requires Locate(s.octree.value.search, p, s.lc) == Some(v) && v > 0.0
    ensures CharLength(s, m, p, cos) == s.lcFactor * v
    ensures Messages(s, m, p, cos) == []
  {
  }

  /**
    A non-positive value found by the direct lookup or by the probe search is
    replaced by the recorded maximum, which is then floored and scaled.
   */
  lemma LocatedNonPositive(s: Session, m: Bgm, p: Point, cos: real -> real, v: real)
    requires m.typ == OnFile && s.octree.Some?
    requires Locate(s.octree.value.search, p, s.lc) == Some(v) && v <= 0.0
    ensures RawLength(s, m, p, cos) == s.bgmMax
    ensures CharLength(s, m, p, cos) == s.lcFactor * Floor(s.bgmMax, s.lc)
  {
  }

  /** A successful direct lookup with a positive value is used as is, after one query. */
  lemma DirectHit(s: Session, m: Bgm, p: Point, cos: real -> real, v: real)
    requires m.typ == OnFile && s.octree.Some?
    requires s.octree.value.search(p) == Some(v) && v > 0.0
    ensures CharLength(s, m, p, cos) == s.lcFactor * v
    ensures QueryCount(s, m, p) == 1
    ensures Messages(s, m, p, cos) == []
  {
  }

  /** A successful direct lookup with a non-positive value falls back to the recorded maximum, without probing. */
  lemma DirectHitNonPositive(s: Session, m: Bgm, p: Point, cos: real -> real, v: real)
    requires m.typ == OnFile && s.octree.Some?
    requires s.octree.value.search(p) == Some(v) && v <= 0.0
    ensures RawLength(s, m, p, cos) == s.bgmMax
    ensures CharLength(s, m, p, cos) == s.lcFactor * Floor(s.bgmMax, s.lc)
    ensures QueryCount(s, m, p) == 1
  {
  }

  /**
    After a direct miss, a positive value found by probe j at offset index i,
    when every earlier probe in the search order missed, is used as is.
   */
  lemma ProbeHit(s: Session, m: Bgm, p: Point, cos: real -> real, i: nat, j: nat, v: real)
    requires m.typ == OnFile && s.octree.Some?
    requires i < |Fact| && j < |Directions|
    requires s.octree.value.search(p).None?
    requires s.octree.value.search(Shift(p, Directions[j], s.lc * Fact[i])) == Some(v) && v > 0.0
    requires forall i0, j0 :: 0 <= i0 < |Fact| && 0 <= j0 < |Directions| && 14 * i0 + j0 < 14 * i + j ==>
               s.octree.value.search(Shift(p, Directions[j0], s.lc * Fact[i0])).None?
    ensures CharLength(s, m, p, cos) == s.lcFactor * v
    ensures QueryCount(s, m, p) == 14 * i + j + 2
  {
    FirstProbeWins(s.octree.value.search, p, s.lc, i, j);
    LocatedPositive(s, m, p, cos, v);
  }

  /** When the octree locates nothing, the recorded maximum is used, floored and scaled. */
  lemma NotLocated(s: Session, m: Bgm, p: Point, cos: real -> real)
    requires m.typ == OnFile && s.octree.Some?
    requires Locate(s.octree.value.search, p, s.lc).None?
    ensures RawLength(s, m, p, cos) == s.bgmMax
    ensures CharLength(s, m, p, cos) == s.lcFactor * Floor(s.bgmMax, s.lc)
  {
  }

  /** When no probe succeeds the result is the recorded maximum, floored and scaled, after 127 queries. */
  lemma SearchExhausted(s: Session, m: Bgm, p: Point, cos: real -> real)
    requires m.typ == OnFile && s.octree.Some?
    requires s.octree.value.search(p).None?
    requires forall i0, j0 :: 0 <= i0 < |Fact| && 0 <= j0 < |Directions| ==>
               s.octree.value.search(Shift(p, Directions[j0], s.lc * Fact[i0])).None?
    ensures CharLength(s, m, p, cos) == s.lcFactor * Floor(s.bgmMax, s.lc)
    ensures QueryCount(s, m, p) == 127
  {
    NothingFound(s.octree.value.search, p, s.lc);
    NotLocated(s, m, p, cos);
  }

  /** The Constant case: the mesh's own length when positive, else a tenth of the reference length. */
  lemma ConstantCase(s: Session, m: Bgm, p: Point, cos: real -> real)
    requires m.typ == Constant
    ensures CharLength(s, m, p, cos) == s.lcFactor * (if m.lc > 0.0 then m.lc else s.lc / 10.0)
    ensures Messages(s, m, p, cos) == if m.lc > 0.0 then [] else [Warning(p)]
  {
  }

  /** The WithPoints case is reported as an error but still answers, with length 1 before scaling. */
  lemma WithPointsCase(s: Session, m: Bgm, p: Point, cos: real -> real)
    requires m.typ == WithPoints
    ensures CharLength(s, m, p, cos) == s.lcFactor
    ensures Messages(s, m, p, cos) == [Error]
  {
  }

  /**
    A type code the switch does not handle leaves the length at 0, so the
    floor replaces it, with a warning, and the octree is not queried.
   */
  lemma OtherCase(s: Session, m: Bgm, p: Point, cos: real -> real)
    requires m.typ == Other
    ensures CharLength(s, m, p, cos) == s.lcFactor * (s.lc / 10.0)
    ensures Messages(s, m, p, cos) == [Warning(p)]
    ensures QueryCount(s, m, p) == 0
  {
  }

  /** The Function case never reaches the floor. */
  lemma FunctionCase(s: Session, m: Bgm, p: Point, cos: real -> real)
    requires m.typ == Function
    ensures CharLength(s, m, p, cos) == s.lcFactor * AnalyticLength(p, cos)
    ensures Messages(s, m, p, cos) == []
  {
  }

  /**
    The global state of the evaluator: the octree over the installed view,
    the view's maximum, and the two context values it reads.
   */
  class BackgroundField {
    var octree: Option<Octree>
    var bgmMax: real
    var lc: real
    var lcFactor: real

    function State(): Session
      reads this
    {
      Session(octree, bgmMax, lc, lcFactor)
    }

    /** No view installed yet: no octree and a recorded maximum of 0. */
    constructor (lc: real, lcFactor: real)
      ensures State() == Session(None, 0.0, lc, lcFactor)
    {
      octree := None;
      bgmMax := 0.0;
      this.lc := lc;
      this.lcFactor := lcFactor;
    }

    /** Installs view as the background field: a new octree over it and its maximum. */
    method WithView(view: PostView) returns (status: int)
      modifies this
      ensures octree.Some? && octree.value.search == view.field
      ensures bgmMax == view.max
      ensures lc == old(lc) && lcFactor == old(lcFactor)
      ensures status == 1
    {
      octree := Some(Octree(view.field));
      bgmMax := view.max;
      status := 1;
    }

    /**
      The ONFILE lookup: the octree is queried at p and, on a miss, at the
      perturbed probes in search order; the first value found is returned,
      and 0 when none is.
     */
    method LocateNear(p: Point) returns (l: real, ghost queries: nat)
      requires octree.Some?
      ensures l == match Locate(octree.value.search, p, lc) case Some(v) => v case None => 0.0
      ensures queries == Lookups(octree.value.search, p, lc)
    {
      l := 0.0;
      var search, scale := octree.value.search, lc;
      var hit := search(p);
      queries := 1;
      if hit.Some? {
        l := hit.value;
        return;
      }
      var i := 0;
      while i < 9
        invariant 0 <= i <= 9
        invariant 14 * i <= FirstHitIndex(search, ProbeSequence(p, scale))
        invariant l == 0.0 && queries == 14 * i + 1
      {
        var eps := scale * Fact[i];
        var j := 0;
        while j < 14
          invariant 0 <= j <= 14
          invariant 14 * i + j <= FirstHitIndex(search, ProbeSequence(p, scale))
          invariant l == 0.0 && queries == 14 * i + j + 1
        {
          ProbeStep(search, p, scale, i, j);
          var h := search(Shift(p, Directions[j], eps));
          queries := queries + 1;
          if h.Some? {
            l := h.value;
            return;
          }
          j := j + 1;
        }
        i := i + 1;
      }
      SearchEnd(search, p, scale);
    }

    /** Evaluates the characteristic length at p for a mesh whose background description is m. */
    method LcXYZ(p: Point, m: Bgm, cos: real -> real) returns (r: real, msgs: seq<Message>, ghost queries: nat)
      requires m.typ == OnFile ==> octree.Some?
      ensures r == CharLength(State(), m, p, cos)
      ensures msgs == Messages(State(), m, p, cos)
      ensures queries == QueryCount(State(), m, p)
    {
      var l := 0.0;
      msgs := [];
      queries := 0;
      match m.typ {
      case Function =>
        l := AnalyticLength(p, cos);
      case Constant =>
        l := m.lc;
      case OnFile =>
        l, queries := LocateNear(p);
        if l <= 0.0 {
          l := bgmMax;
        }
      case WithPoints =>
        msgs := [Error];
        l := 1.0;
      case Other =>
      }
      if l <= 0.0 {
        msgs := msgs + [Warning(p)];
        l := lc / 10.0;
      }
      r := lcFactor * l;
    }
  }
}
