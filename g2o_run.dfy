/** One run of g2o local bundle adjustment on the map: build the graph, solve,
    write the free vertices back, and compute the error summary, which
    `adjustBundle_G2O` stores on the newest view. */
module G2oRun {
  import opened SeqUtil
  import opened Entities
  import opened Windows
  import opened G2oGraph
  import opened G2oEdges
  import opened G2oProblem
  import opened G2oSolve
  import opened G2oWriteBack
  import opened G2oDiag

  /** The id table that holds vertices of a kind. */
  function TableFor(k: VKind): TableId
  {
    match k
    case CamV => CamT
    case PointV => PtT
    case VpV => VpT
    case LineV => LnT
    case PlaneV => PlT
  }

  /** Vertex `v` at id `p` names an existing entity, has the estimate of its kind, and
      its table sends its entity back to `p`. */
  predicate VertexOk(v: Vertex, p: nat, t: Tables, m: MapState)
  {
    && EntityInRange(v, m) && ShapeOk(v)
    && v.entity in TableOf(t, TableFor(v.kind)) && TableOf(t, TableFor(v.kind))[v.entity] == p
  }

  predicate SegmentOk(seg: seq<Vertex>, base: nat, kind: VKind, t: Tables, m: MapState)
  {
    forall k :: 0 <= k < |seg| ==> seg[k].kind == kind && VertexOk(seg[k], base + k, t, m)
  }

  // ------------------------------------------- each stage's vertices are in their table

  lemma CamSegment(m: MapState, cs: seq<CamDist>, w: Window)
    requires BuildReady(m, w)
    ensures SegmentOk(VertexSpec(m, cs, w).cams, 0, CamV, TablesOf(VertexSpec(m, cs, w)), m)
  {
    var vs := VertexSpec(m, cs, w);
    forall k | 0 <= k < |vs.cams|
      ensures vs.cams[k].kind == CamV && VertexOk(vs.cams[k], k, TablesOf(vs), m)
    {
      CamFixedRule(m.views, w, |vs.dist| > 0, k);
      CameraVertexRule(m, cs, w, k);
    }
  }

  lemma LandmarkSegmentEntries(items: seq<Landmark>, kind: VKind, fp: int, rule: FixRule, base: nat)
    requires EligibleAtGid(items)
    ensures var st := LandmarkStage(items, kind, fp, rule, base);
            forall k :: 0 <= k < |st.verts| ==>
              0 <= st.verts[k].entity < |items| && st.verts[k].est.XyzEst? &&
              st.verts[k].entity in st.gid2vid && st.gid2vid[st.verts[k].entity] == base + k
  {
    var st := LandmarkStage(items, kind, fp, rule, base);
    var a := AdmitFlags(items, fp);
    LandmarkStageVerts(items, kind, fp, rule, base);
    LandmarkStageTable(items, kind, fp, rule, base);
    forall k | 0 <= k < |st.verts|
      ensures 0 <= st.verts[k].entity < |items| && st.verts[k].est.XyzEst?
      ensures st.verts[k].entity in st.gid2vid && st.gid2vid[st.verts[k].entity] == base + k
    {
      RankOfSelected(a, k);
      var i := Select(a)[k];
      assert items[i].gid == i;
    }
  }

  /** A landmark stage's vertices are in their table, given that every entity index of
      `items` exists in the map. */
  lemma LandmarkSegment(items: seq<Landmark>, kind: VKind, fp: int, rule: FixRule, base: nat, t: Tables, m: MapState)
    requires EligibleAtGid(items) && kind != CamV && kind != PlaneV
    requires TableOf(t, TableFor(kind)) == LandmarkStage(items, kind, fp, rule, base).gid2vid
    requires forall e :: 0 <= e < |items| ==> KindEntityInRange(kind, e, m)
    ensures SegmentOk(LandmarkStage(items, kind, fp, rule, base).verts, base, kind, t, m)
  {
    LandmarkSegmentEntries(items, kind, fp, rule, base);
  }

  lemma PointSegment(m: MapState, cs: seq<CamDist>, w: Window)
    requires BuildReady(m, w)
    ensures SegmentOk(VertexSpec(m, cs, w).pt.verts, |VertexSpec(m, cs, w).cams|, PointV, TablesOf(VertexSpec(m, cs, w)), m)
  {
    var vs := VertexSpec(m, cs, w);
    var items := PointLandmarks(m.keyPoints);
    assert vs.pt == LandmarkStage(items, PointV, w.frontPosIdx, PointRule(w, |vs.dist| > 0), |vs.cams|);
    LandmarkSegment(items, PointV, w.frontPosIdx, PointRule(w, |vs.dist| > 0), |vs.cams|, TablesOf(vs), m);
  }

  lemma VpSegment(m: MapState, cs: seq<CamDist>, w: Window)
    requires BuildReady(m, w)
    ensures SegmentOk(VertexSpec(m, cs, w).vp.verts, |VertexSpec(m, cs, w).cams| + |VertexSpec(m, cs, w).pt.verts|,
                      VpV, TablesOf(VertexSpec(m, cs, w)), m)
  {
    var vs := VertexSpec(m, cs, w);
    var items := VpLandmarks(m.vanishingPoints);
    var b2 := |vs.cams| + |vs.pt.verts|;
    assert vs.vp == LandmarkStage(items, VpV, w.frontPosIdx, NeverFixed, b2);
    LandmarkSegment(items, VpV, w.frontPosIdx, NeverFixed, b2, TablesOf(vs), m);
  }

  lemma LineSegment(m: MapState, cs: seq<CamDist>, w: Window)
    requires BuildReady(m, w)
    ensures SegmentOk(VertexSpec(m, cs, w).ln.verts,
                      |VertexSpec(m, cs, w).cams| + |VertexSpec(m, cs, w).pt.verts| + |VertexSpec(m, cs, w).vp.verts|,
                      LineV, TablesOf(VertexSpec(m, cs, w)), m)
  {
    var vs := VertexSpec(m, cs, w);
    var items := LineLandmarks(m.idealLines);
    var b3 := |vs.cams| + |vs.pt.verts| + |vs.vp.verts|;
    var rule := LineRule(w, |vs.dist| > 0);
    assert vs.ln == LandmarkStage(items, LineV, w.frontPosIdx, rule, b3);
    LandmarkSegment(items, LineV, w.frontPosIdx, rule, b3, TablesOf(vs), m);
  }

  lemma PlaneSegment(m: MapState, cs: seq<CamDist>, w: Window)
    requires BuildReady(m, w)
    ensures SegmentOk(VertexSpec(m, cs, w).pl.verts,
                      |VertexSpec(m, cs, w).cams| + |VertexSpec(m, cs, w).pt.verts| + |VertexSpec(m, cs, w).vp.verts| +
                      |VertexSpec(m, cs, w).ln.verts|,
                      PlaneV, TablesOf(VertexSpec(m, cs, w)), m)
  {
    var vs := VertexSpec(m, cs, w);
    var b4 := |vs.cams| + |vs.pt.verts| + |vs.vp.verts| + |vs.ln.verts|;
    assert vs.pl == PlaneStage(m.primaryPlanes, w.refId, w.frontPosIdx, vs.pt.gid2vid, vs.ln.gid2vid, b4);
    PlaneSegmentOk(m.primaryPlanes, w.refId, w.frontPosIdx, vs.pt.gid2vid, vs.ln.gid2vid, b4, TablesOf(vs), m);
  }

  lemma PlaneSegmentOk(pls: seq<PrimaryPlane>, refId: int, fp: int, ptT: map<int, nat>, lnT: map<int, nat>, base: nat,
                       t: Tables, m: MapState)
    requires pls == m.primaryPlanes && t.pl == PlaneStage(pls, refId, fp, ptT, lnT, base).gid2vid
    ensures SegmentOk(PlaneStage(pls, refId, fp, ptT, lnT, base).verts, base, PlaneV, t, m)
  {
    PlaneSegmentEntries(pls, refId, fp, ptT, lnT, base);
  }

  lemma PlaneSegmentEntries(pls: seq<PrimaryPlane>, refId: int, fp: int, ptT: map<int, nat>, lnT: map<int, nat>, base: nat)
    ensures var st := PlaneStage(pls, refId, fp, ptT, lnT, base);
            forall k :: 0 <= k < |st.verts| ==>
              st.verts[k].kind == PlaneV && 0 <= st.verts[k].entity < |pls| && st.verts[k].est.PlaneEst? &&
              st.verts[k].entity in st.gid2vid && st.gid2vid[st.verts[k].entity] == base + k
  {
    PlaneStageFacts(pls, refId, fp, ptT, lnT, base);
    PlaneStageVerts(pls, refId, fp, ptT, lnT, base);
    RankedStage(PlaneStage(pls, refId, fp, ptT, lnT, base), PlaneFlags(pls, refId, ptT, lnT), base);
  }

  /** A segment's facts read off the whole list. */
  lemma SegmentLift(all: seq<Vertex>, seg: seq<Vertex>, base: nat, kind: VKind, t: Tables, m: MapState)
    requires base + |seg| <= |all| && forall k :: 0 <= k < |seg| ==> all[base + k] == seg[k]
    requires SegmentOk(seg, base, kind, t, m)
    ensures forall p :: base <= p < base + |seg| ==> all[p].kind == kind && VertexOk(all[p], p, t, m)
  {
    forall p | base <= p < base + |seg|
      ensures all[p].kind == kind && VertexOk(all[p], p, t, m)
    {
      assert all[base + (p - base)] == seg[p - base];
    }
  }

  // ------------------------------------------------------------ the whole vertex list

  function SegmentIndex(p: nat, vs: VertexSet): nat
  {
    if p < |vs.cams| then 0
    else if p < |vs.cams| + |vs.pt.verts| then 1
    else if p < |vs.cams| + |vs.pt.verts| + |vs.vp.verts| then 2
    else if p < |vs.cams| + |vs.pt.verts| + |vs.vp.verts| + |vs.ln.verts| then 3
    else 4
  }

  lemma CombineSegments(vs: VertexSet, t: Tables, m: MapState)
    requires var b1 := |vs.cams|;
             var b2 := b1 + |vs.pt.verts|;
             var b3 := b2 + |vs.vp.verts|;
             var b4 := b3 + |vs.ln.verts|;
             && SegmentOk(vs.cams, 0, CamV, t, m) && SegmentOk(vs.pt.verts, b1, PointV, t, m)
             && SegmentOk(vs.vp.verts, b2, VpV, t, m) && SegmentOk(vs.ln.verts, b3, LineV, t, m)
             && SegmentOk(vs.pl.verts, b4, PlaneV, t, m)
    ensures forall p :: 0 <= p < |AllVertices(vs)| ==>
      VertexOk(AllVertices(vs)[p], p, t, m) && KindRank(AllVertices(vs)[p].kind) == SegmentIndex(p, vs)
  {
    var all := AllVertices(vs);
    var b1 := |vs.cams|;
    var b2 := b1 + |vs.pt.verts|;
    var b3 := b2 + |vs.vp.verts|;
    var b4 := b3 + |vs.ln.verts|;
    Segments(vs);
    SegmentLift(all, vs.cams, 0, CamV, t, m);
    SegmentLift(all, vs.pt.verts, b1, PointV, t, m);
    SegmentLift(all, vs.vp.verts, b2, VpV, t, m);
    SegmentLift(all, vs.ln.verts, b3, LineV, t, m);
    SegmentLift(all, vs.pl.verts, b4, PlaneV, t, m);
    forall p | 0 <= p < |all|
      ensures VertexOk(all[p], p, t, m) && KindRank(all[p].kind) == SegmentIndex(p, vs)
    {
      if p < b1 {
        assert all[p].kind == CamV;
      } else if p < b2 {
        assert all[p].kind == PointV;
      } else if p < b3 {
        assert all[p].kind == VpV;
      } else if p < b4 {
        assert all[p].kind == LineV;
      } else {
        assert all[p].kind == PlaneV;
      }
    }
  }

  lemma AllVerticesOk(m: MapState, cs: seq<CamDist>, w: Window)
    requires BuildReady(m, w)
    ensures var vs := VertexSpec(m, cs, w);
            forall p :: 0 <= p < |AllVertices(vs)| ==>
              VertexOk(AllVertices(vs)[p], p, TablesOf(vs), m) &&
              KindRank(AllVertices(vs)[p].kind) == SegmentIndex(p, vs)
  {
    CamSegment(m, cs, w);
    PointSegment(m, cs, w);
    VpSegment(m, cs, w);
    LineSegment(m, cs, w);
    PlaneSegment(m, cs, w);
    CombineSegments(VertexSpec(m, cs, w), TablesOf(VertexSpec(m, cs, w)), m);
  }

  /** The built vertex list can be written back: every vertex names an existing entity
      with an estimate of its kind, no entity has two vertices of one kind, and kinds
      come in insertion order (so lines see the final vanishing points). */
  lemma BuiltVerticesWritable(m: MapState, cs: seq<CamDist>, w: Window)
    ensures BuildReady(m, w) ==>
      var all := AllVertices(VertexSpec(m, cs, w));
      Writable(all, m) && EntitiesDistinct(all) && KindsOrdered(all)
  {
    if BuildReady(m, w) {
      var vs := VertexSpec(m, cs, w);
      var all := AllVertices(vs);
      var t := TablesOf(vs);
      AllVerticesOk(m, cs, w);
      forall i, j | 0 <= i < j < |all| && all[i].kind == all[j].kind
        ensures all[i].entity != all[j].entity
      {
        assert VertexOk(all[i], i, t, m) && VertexOk(all[j], j, t, m);
      }
      forall i, j | 0 <= i < j < |all|
        ensures KindRank(all[i].kind) <= KindRank(all[j].kind)
      {
        assert SegmentIndex(i, vs) <= SegmentIndex(j, vs);
      }
    }
  }

  /** Solving keeps what write-back relies on. */
  lemma KeptStaysWritable(a: seq<Vertex>, b: seq<Vertex>, m: MapState)
    requires VerticesKept(a, b) && Writable(a, m) && EntitiesDistinct(a) && KindsOrdered(a)
    ensures Writable(b, m) && EntitiesDistinct(b) && KindsOrdered(b)
  {
    forall k | 0 <= k < |b|
      ensures EntityInRange(b[k], m) && ShapeOk(b[k])
    {
      assert b[k].kind == a[k].kind && b[k].entity == a[k].entity && SameShape(b[k].est, a[k].est);
    }
  }

  // ------------------------------------------------------------------- one run

  /** What a run needs of its inputs: a map the builder can index, a non-negative
      iteration budget, and a newest view to store the errors on when they are stored. */
  predicate RunReady(m: MapState, w: Window)
  {
    BuildReady(m, w) && w.distIters >= 0 && (w.storesDiagnostics ==> |m.views| > 0)
  }

  /** The graph after the solve stage. */
  function Solved(m: MapState, cs: seq<CamDist>, w: Window, s: Settings, opt: Optimizer): Graph
    requires RunReady(m, w) && BuildSpec(m, cs, w, s).Success?
  {
    SolveSpec(BuildSpec(m, cs, w, s).value.graph, w.distIters, opt)
  }

  /** The solved vertices are the built ones, moved only where free, and can be written back. */
  lemma SolvedVertices(m: MapState, cs: seq<CamDist>, w: Window, s: Settings, opt: Optimizer)
    requires RunReady(m, w) && BuildSpec(m, cs, w, s).Success?
    ensures VerticesKept(AllVertices(VertexSpec(m, cs, w)), Solved(m, cs, w, s, opt).verts)
    ensures var v := Solved(m, cs, w, s, opt).verts;
            Writable(v, m) && EntitiesDistinct(v) && KindsOrdered(v)
  {
    BuildEdgesName(m, cs, w, s);
    SolveKeeps(BuildSpec(m, cs, w, s).value.graph, w.distIters, opt);
    BuiltVerticesWritable(m, cs, w);
    KeptStaysWritable(AllVertices(VertexSpec(m, cs, w)), Solved(m, cs, w, s, opt).verts, m);
  }

  /** The map after the write-back of the solved vertices. */
  function WrittenBack(m: MapState, cs: seq<CamDist>, w: Window, s: Settings, opt: Optimizer, geo: Geometry): (r: MapState)
    requires RunReady(m, w) && BuildSpec(m, cs, w, s).Success?
    ensures SameLayout(m, r)
  {
    SolvedVertices(m, cs, w, s, opt);
    WriteBackSpec(m, Solved(m, cs, w, s, opt).verts, geo)
  }

  /** Build, solve, write back, compute the errors and, in `adjustBundle_G2O`, store them
      on the newest view.  A failed build ends the run with the error (the source exits);
      a missing robust kernel during the error pass fails likewise. */
  function RunSpec(m: MapState, cs: seq<CamDist>, w: Window, s: Settings, opt: Optimizer, geo: Geometry, cm: CostModel): Result<MapState>
    requires RunReady(m, w)
  {
    match BuildSpec(m, cs, w, s)
    case Failure(e) => Failure(e)
    case Success(_) =>
      match ErrorsSpec(Solved(m, cs, w, s, opt), cm)
      case Failure(e) => Failure(e)
      case Success(er) =>
        var st := WrittenBack(m, cs, w, s, opt, geo);
        Success(if w.storesDiagnostics then st.(views := StoreErrors(st.views, er)) else st)
  }

  method Run(m: MapState, cs: seq<CamDist>, w: Window, s: Settings, opt: Optimizer, geo: Geometry, cm: CostModel)
    returns (r: Result<MapState>)
    requires RunReady(m, w)
    ensures r == RunSpec(m, cs, w, s, opt, geo, cm)
  {
    var p := BuildProblem(m, cs, w, s);
    if p.Failure? {
      return Failure(p.error);
    }
    var g := Solve(p.value.graph, w.distIters, opt);
    SolvedVertices(m, cs, w, s, opt);
    var st := WriteBack(m, g.verts, geo);
    var er := ComputeErrors(g, cm);
    if er.Failure? {
      return Failure(er.error);
    }
    if w.storesDiagnostics {
      st := st.(views := StoreErrors(st.views, er.value));
    }
    r := Success(st);
  }

  // ------------------------------------------------------------- what a run changes

  /** The vertex id of entity e of a kind in the built graph, if any. */
  function VertexIdOf(m: MapState, cs: seq<CamDist>, w: Window, kind: VKind, e: int): Option<nat>
    requires BuildReady(m, w)
  {
    var t := TableOf(TablesOf(VertexSpec(m, cs, w)), TableFor(kind));
    if e in t then Some(t[e]) else None
  }

  /** Entity e has a vertex that is free. */
  predicate MovesIn(m: MapState, cs: seq<CamDist>, w: Window, kind: VKind, e: int)
    requires BuildReady(m, w)
  {
    var id := VertexIdOf(m, cs, w, kind, e);
    id.Some? && id.value < |AllVertices(VertexSpec(m, cs, w))| && !AllVertices(VertexSpec(m, cs, w))[id.value].fixed
  }

  lemma OnlyVertexOfEntity(m: MapState, cs: seq<CamDist>, w: Window, k: nat)
    requires BuildReady(m, w) && k < |AllVertices(VertexSpec(m, cs, w))|
    ensures var v := AllVertices(VertexSpec(m, cs, w))[k];
            VertexIdOf(m, cs, w, v.kind, v.entity) == Some(k)
  {
    AllVerticesOk(m, cs, w);
  }

  /** The table entry of an entity names a vertex of that kind standing for it. */
  lemma TableEntry(m: MapState, cs: seq<CamDist>, w: Window, kind: VKind, e: int)
    requires BuildReady(m, w) && VertexIdOf(m, cs, w, kind, e).Some?
    ensures var k := VertexIdOf(m, cs, w, kind, e).value;
            var all := AllVertices(VertexSpec(m, cs, w));
            k < |all| && all[k].kind == kind && all[k].entity == e
  {
    var vs := VertexSpec(m, cs, w);
    VertexTables(m, cs, w);
    assert TableNames(TableOf(TablesOf(vs), TableFor(kind)), AllVertices(vs), KindOfTable(TableFor(kind)));
  }

  /** A map entry whose entity has no free vertex is left as it was by the write-back. */
  lemma EntityKept(m: MapState, cs: seq<CamDist>, w: Window, s: Settings, opt: Optimizer, geo: Geometry, kind: VKind, e: int)
    requires RunReady(m, w) && BuildSpec(m, cs, w, s).Success?
    requires !MovesIn(m, cs, w, kind, e)
    ensures SlotOf(WrittenBack(m, cs, w, s, opt, geo), kind, e) == SlotOf(m, kind, e)
  {
    SolvedVertices(m, cs, w, s, opt);
    var all := AllVertices(VertexSpec(m, cs, w));
    var v := Solved(m, cs, w, s, opt).verts;
    forall k | 0 <= k < |v| && v[k].kind == kind && v[k].entity == e
      ensures v[k].fixed
    {
      OnlyVertexOfEntity(m, cs, w, k);
    }
    WriteBackFrame(m, v, geo, kind, e);
  }

  /** The entity of a free vertex takes that vertex's solved estimate and keeps the
      rest of its record: a view its (R, t), a point or vanishing point its position,
      a plane the unit normal and distance `planeOf` gives for its estimate. */
  lemma EntityMoved(m: MapState, cs: seq<CamDist>, w: Window, s: Settings, opt: Optimizer, geo: Geometry, kind: VKind, e: int)
    requires RunReady(m, w) && BuildSpec(m, cs, w, s).Success?
    requires MovesIn(m, cs, w, kind, e) && kind != LineV
    ensures var k := VertexIdOf(m, cs, w, kind, e).value;
            var v := Solved(m, cs, w, s, opt).verts;
            var r := WrittenBack(m, cs, w, s, opt, geo);
            && k < |v| && v[k].kind == kind && v[k].entity == e && KindEntityInRange(kind, e, m) && ShapeOk(v[k])
            && match kind
               case CamV => r.views[e] == m.views[e].(r := v[k].est.r, t := v[k].est.t)
               case PointV => r.keyPoints[e] == m.keyPoints[e].(pos := v[k].est.p)
               case VpV => r.vanishingPoints[e] == m.vanishingPoints[e].(pos := v[k].est.p)
               case PlaneV => r.primaryPlanes[e] == m.primaryPlanes[e].(n := geo.planeOf(v[k].est.n, v[k].est.d).0,
                                                                         d := geo.planeOf(v[k].est.n, v[k].est.d).1)
               case LineV => true
  {
    var k := VertexIdOf(m, cs, w, kind, e).value;
    TableEntry(m, cs, w, kind, e);
    SolvedVertices(m, cs, w, s, opt);
    var v := Solved(m, cs, w, s, opt).verts;
    assert k < |v| && v[k].kind == kind && v[k].entity == e && !v[k].fixed;
    assert EntityInRange(v[k], m);
    WriteBackValue(m, v, geo, k);
  }

  /** A line with a free vertex takes its solved mid-point, the direction of its vanishing
      point as written back, and the projection step. */
  lemma LineMoved(m: MapState, cs: seq<CamDist>, w: Window, s: Settings, opt: Optimizer, geo: Geometry, e: int)
    requires RunReady(m, w) && BuildSpec(m, cs, w, s).Success?
    requires MovesIn(m, cs, w, LineV, e)
    ensures var k := VertexIdOf(m, cs, w, LineV, e).value;
            var v := Solved(m, cs, w, s, opt).verts;
            var r := WrittenBack(m, cs, w, s, opt, geo);
            && k < |v| && v[k].kind == LineV && v[k].entity == e && 0 <= e < |m.idealLines| && v[k].est.XyzEst?
            && 0 <= m.idealLines[e].vpGid < |r.vanishingPoints|
            && r.idealLines[e] == LineUpdate(m.idealLines[e], v[k].est.p, r.vanishingPoints, geo)
  {
    var k := VertexIdOf(m, cs, w, LineV, e).value;
    TableEntry(m, cs, w, LineV, e);
    SolvedVertices(m, cs, w, s, opt);
    var v := Solved(m, cs, w, s, opt).verts;
    assert k < |v| && v[k].kind == LineV && v[k].entity == e && !v[k].fixed;
    assert EntityInRange(v[k], m) && ShapeOk(v[k]);
    WriteBackLine(m, v, geo, k);
  }

  // ------------------------------------------------ which entities move, in map terms

  /** A view moves iff it is in the camera window and is not pinned: views before
      max(1, frontPosIdx) are pinned, and once a distance edge exists only the window's
      first camera stays pinned. */
  lemma ViewMoves(m: MapState, cs: seq<CamDist>, w: Window, i: int)
    requires BuildReady(m, w)
    ensures MovesIn(m, cs, w, CamV, i) <==>
      (w.camLo <= i < w.camHi &&
       !(i < Max(1, w.frontPosIdx) && (|VertexSpec(m, cs, w).dist| == 0 || i == w.camLo)))
  {
    var vs := VertexSpec(m, cs, w);
    if w.camLo <= i < w.camHi {
      CameraVertexRule(m, cs, w, i - w.camLo);
    }
  }

  /** A point moves iff it is triangulated, registered, observed at or after frontPosIdx,
      and not stale (first seen before frontFrmIdx and estimated before the reference view,
      with no distance edge). */
  lemma PointMoves(m: MapState, cs: seq<CamDist>, w: Window, i: nat)
    requires BuildReady(m, w) && i < |m.keyPoints|
    ensures var kp := m.keyPoints[i];
            MovesIn(m, cs, w, PointV, i) <==>
              (kp.is3D && kp.gid >= 0 && SeenFrom(kp.obs, w.frontPosIdx) &&
               !(|kp.obs| > 0 && kp.obs[0].view < w.frontFrmIdx && kp.estViewId < w.refId && |VertexSpec(m, cs, w).dist| == 0))
  {
    PointVertexRule(m, cs, w, i);
  }

  /** A vanishing point moves iff it is observed at or after frontPosIdx. */
  lemma VpMoves(m: MapState, cs: seq<CamDist>, w: Window, i: nat)
    requires BuildReady(m, w) && i < |m.vanishingPoints|
    ensures MovesIn(m, cs, w, VpV, i) <==> SeenFrom(m.vanishingPoints[i].obs, w.frontPosIdx)
  {
    VpVertexRule(m, cs, w, i);
  }

  /** A line moves iff it is triangulated, registered, observed at or after frontPosIdx,
      and not stale by the point rule, where a distance edge counts only when the window
      says lines heed it. */
  lemma LineMoves(m: MapState, cs: seq<CamDist>, w: Window, i: nat)
    requires BuildReady(m, w) && i < |m.idealLines|
    ensures var il := m.idealLines[i];
            MovesIn(m, cs, w, LineV, i) <==>
              (il.is3D && il.gid >= 0 && SeenFrom(il.obs, w.frontPosIdx) &&
               !(|il.obs| > 0 && il.obs[0].view < w.frontFrmIdx && il.estViewId < w.refId &&
                 !(w.lineFixHonoursDist && |VertexSpec(m, cs, w).dist| > 0)))
  {
    LineVertexRule(m, cs, w, i);
  }

  /** A plane moves iff it has a vertex and was estimated at or after frontPosIdx. */
  lemma PlaneMoves(m: MapState, cs: seq<CamDist>, w: Window, i: nat)
    requires BuildReady(m, w) && i < |m.primaryPlanes|
    ensures var pl := m.primaryPlanes[i];
            var vs := VertexSpec(m, cs, w);
            MovesIn(m, cs, w, PlaneV, i) <==>
              (w.refId - pl.estViewId >= 3 && (AnyIn(pl.kptGids, vs.pt.gid2vid) || AnyIn(pl.ilnGids, vs.ln.gid2vid)) &&
               pl.estViewId >= w.frontPosIdx)
  {
    PlaneVertexRule(m, cs, w, i);
  }
}
