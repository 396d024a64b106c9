/** The whole optimisation problem one call of the g2o back end sets up:
    vertices, tables and edges, the error a missing vertex or kernel
    raises, and what the finished graph is proved to satisfy. */
module G2oProblem {
  import opened SeqUtil
  import opened Entities
  import opened Windows
  import opened G2oGraph
  import opened G2oEdges
  import opened G2oBuild

  /** What the source dereferences without checking: the camera window lies in the
      view list, observations name existing views and features, and global ids are indices. */
  predicate BuildReady(m: MapState, w: Window)
  {
    && CamRangeOk(m.views, w)
    && ObservationsValid(m.views, m.keyPoints, m.vanishingPoints, m.idealLines)
    && GidsAreIndices(m.keyPoints, m.vanishingPoints, m.idealLines)
  }

  /** Points are pinned only while no distance edge exists. */
  function PointRule(w: Window, hasDist: bool): FixRule { FixStale(w.frontFrmIdx, w.refId, hasDist) }

  /** Lines heed distance edges only in `bundle_adjust_between`. */
  function LineRule(w: Window, hasDist: bool): FixRule { FixStale(w.frontFrmIdx, w.refId, w.lineFixHonoursDist && hasDist) }

  /** The vertex part of the problem: camera vertices (after unfixing), the camera
      tables, the distance edges, and the four landmark stages. */
  datatype VertexSet = VertexSet(
    cams: seq<Vertex>, fid2vid: map<int, nat>, vid2fid: map<nat, int>, dist: seq<Edge>,
    pt: Stage, vp: Stage, ln: Stage, pl: Stage)

  /** Camera vertices (after unfixing), the two camera tables and the distance edges. */
  datatype CamSet = CamSet(cams: seq<Vertex>, fid2vid: map<int, nat>, vid2fid: map<nat, int>, dist: seq<Edge>)

  function CameraSpec(m: MapState, cs: seq<CamDist>, w: Window): CamSet
    requires CamRangeOk(m.views, w)
  {
    var fid2vid := CamFid2Vid(w.camLo, CamCount(w));
    var dist := DistEdges(cs, DistLo(cs, w.distSpan), |cs|, fid2vid);
    CamSet(Unfix(CamVertices(m.views, w), |dist| > 0), fid2vid, CamVid2Fid(w.camLo, CamCount(w)), dist)
  }

  /** The four landmark stages, vertex ids running on from `b1`. */
  datatype LandmarkSet = LandmarkSet(pt: Stage, vp: Stage, ln: Stage, pl: Stage)

  function LandmarkSpec(m: MapState, w: Window, hasDist: bool, b1: nat): (r: LandmarkSet)
    requires GidsAreIndices(m.keyPoints, m.vanishingPoints, m.idealLines)
    ensures LineTableInRange(r.ln.gid2vid, m.idealLines)
  {
    var pt := LandmarkStage(PointLandmarks(m.keyPoints), PointV, w.frontPosIdx, PointRule(w, hasDist), b1);
    var b2 := b1 + |pt.verts|;
    var vp := LandmarkStage(VpLandmarks(m.vanishingPoints), VpV, w.frontPosIdx, NeverFixed, b2);
    var b3 := b2 + |vp.verts|;
    var lns := LineLandmarks(m.idealLines);
    var ln := LandmarkStage(lns, LineV, w.frontPosIdx, LineRule(w, hasDist), b3);
    var b4 := b3 + |ln.verts|;
    var pl := PlaneStage(m.primaryPlanes, w.refId, w.frontPosIdx, pt.gid2vid, ln.gid2vid, b4);
    LandmarkStageKeys(lns, LineV, w.frontPosIdx, LineRule(w, hasDist), b3);
    LandmarkSet(pt, vp, ln, pl)
  }

  function VertexSpec(m: MapState, cs: seq<CamDist>, w: Window): (r: VertexSet)
    requires BuildReady(m, w)
    ensures forall k :: 0 <= k < |r.pt.opt| ==> r.pt.opt[k] < |m.keyPoints|
    ensures forall k :: 0 <= k < |r.pt.rpj| ==> r.pt.rpj[k] < |m.keyPoints|
    ensures forall k :: 0 <= k < |r.vp.opt| ==> r.vp.opt[k] < |m.vanishingPoints|
    ensures forall k :: 0 <= k < |r.ln.opt| ==> r.ln.opt[k] < |m.idealLines|
    ensures forall k :: 0 <= k < |r.ln.rpj| ==> r.ln.rpj[k] < |m.idealLines|
    ensures forall k :: 0 <= k < |r.pl.opt| ==> r.pl.opt[k] < |m.primaryPlanes|
    ensures LineTableInRange(r.ln.gid2vid, m.idealLines)
  {
    var c := CameraSpec(m, cs, w);
    var l := LandmarkSpec(m, w, |c.dist| > 0, |c.cams|);
    VertexSet(c.cams, c.fid2vid, c.vid2fid, c.dist, l.pt, l.vp, l.ln, l.pl)
  }

  /** Vertex ids follow insertion order: cameras, points, vanishing points, lines, planes. */
  function AllVertices(vs: VertexSet): seq<Vertex>
  {
    vs.cams + vs.pt.verts + vs.vp.verts + vs.ln.verts + vs.pl.verts
  }

  function TablesOf(vs: VertexSet): Tables
  {
    Tables(vs.fid2vid, vs.pt.gid2vid, vs.vp.gid2vid, vs.ln.gid2vid, vs.pl.gid2vid)
  }

  lemma LandmarksFit(m: MapState)
    requires ObservationsValid(m.views, m.keyPoints, m.vanishingPoints, m.idealLines)
    ensures forall i :: 0 <= i < |m.keyPoints| ==> AllFit(PointObs, m.views, PointLandmarks(m.keyPoints)[i].obs)
    ensures forall i :: 0 <= i < |m.vanishingPoints| ==> AllFit(VpObs, m.views, VpLandmarks(m.vanishingPoints)[i].obs)
    ensures forall i :: 0 <= i < |m.idealLines| ==> AllFit(LineObs, m.views, LineLandmarks(m.idealLines)[i].obs)
  {
  }

  /** The edge requests, list by list, in the order the source adds them. */
  datatype Requests = Requests(kpt: seq<Request>, vnpt: seq<Request>, line: seq<Request>, ptPlane: seq<Request>, lnPlane: seq<Request>)

  function RequestSpec(m: MapState, cs: seq<CamDist>, w: Window, s: Settings): Requests
    requires BuildReady(m, w)
  {
    var vs := VertexSpec(m, cs, w);
    var pts := PointLandmarks(m.keyPoints);
    var vps := VpLandmarks(m.vanishingPoints);
    var lns := LineLandmarks(m.idealLines);
    LandmarksFit(m);
    Requests(
      LandmarkRequests(PointObs, vs.pt.opt, pts, m.views, w.frontFrmIdx, s) +
        LandmarkRequests(PointObs, vs.pt.rpj, pts, m.views, w.frontFrmIdx, s),
      LandmarkRequests(VpObs, vs.vp.opt, vps, m.views, w.frontVptIdx, s),
      LandmarkRequests(LineObs, vs.ln.opt, lns, m.views, w.frontFrmIdx, s) +
        LandmarkRequests(LineObs, vs.ln.rpj, lns, m.views, w.frontFrmIdx, s),
      PlanePointRequests(m.primaryPlanes, vs.pl.opt, vs.pt.gid2vid, s),
      PlaneLineRequests(m.primaryPlanes, vs.pl.opt, vs.ln.gid2vid, m.idealLines, s))
  }

  /** The built problem: the graph, its id tables, camvid2fid, and whether a distance edge exists. */
  datatype Problem = Problem(graph: Graph, tables: Tables, camVid2Fid: map<nat, int>, hasDist: bool)

  /** Vertices, then edges list by list; the first edge that cannot be added ends the run. */
  function BuildSpec(m: MapState, cs: seq<CamDist>, w: Window, s: Settings): Result<Problem>
    requires BuildReady(m, w)
  {
    BuildFrom(VertexSpec(m, cs, w), RequestSpec(m, cs, w, s))
  }

  /** Bind every edge list in order against the vertex tables; the first unbindable
      request ends the build. */
  function BuildFrom(vs: VertexSet, rq: Requests): Result<Problem>
  {
    var t := TablesOf(vs);
    match ResolveAll(rq.kpt, t)
    case Failure(e) => Failure(e)
    case Success(kpt) =>
      match ResolveAll(rq.vnpt, t)
      case Failure(e) => Failure(e)
      case Success(vnpt) =>
        match ResolveAll(rq.line, t)
        case Failure(e) => Failure(e)
        case Success(line) =>
          match ResolveAll(rq.ptPlane, t)
          case Failure(e) => Failure(e)
          case Success(pp) =>
            match ResolveAll(rq.lnPlane, t)
            case Failure(e) => Failure(e)
            case Success(lp) =>
              Success(Problem(Graph(AllVertices(vs), vs.dist, kpt, vnpt, line, pp, lp), t, vs.vid2fid, |vs.dist| > 0))
  }

  // ---------------------------------------------------------------- the build loops

  method BuildCameras(m: MapState, cs: seq<CamDist>, w: Window) returns (c: CamSet)
    requires CamRangeOk(m.views, w)
    ensures c == CameraSpec(m, cs, w)
  {
    var cams, fid2vid, vid2fid := AddCameraVertices(m.views, w);
    var dist := SelectDistEdges(cs, w.distSpan, fid2vid);
    cams := UnfixCameras(cams, |dist| > 0);
    c := CamSet(cams, fid2vid, vid2fid, dist);
  }

  method BuildLandmarks(m: MapState, w: Window, hasDist: bool, b1: nat) returns (l: LandmarkSet)
    requires GidsAreIndices(m.keyPoints, m.vanishingPoints, m.idealLines)
    ensures l == LandmarkSpec(m, w, hasDist, b1)
  {
    var pt, vp, ln, pl;
    var next: nat;
    pt, next := AddLandmarkVertices(PointLandmarks(m.keyPoints), PointV, w.frontPosIdx, PointRule(w, hasDist), b1);
    vp, next := AddLandmarkVertices(VpLandmarks(m.vanishingPoints), VpV, w.frontPosIdx, NeverFixed, next);
    ln, next := AddLandmarkVertices(LineLandmarks(m.idealLines), LineV, w.frontPosIdx, LineRule(w, hasDist), next);
    pl, next := AddPlaneVertices(m.primaryPlanes, w.refId, w.frontPosIdx, pt.gid2vid, ln.gid2vid, next);
    l := LandmarkSet(pt, vp, ln, pl);
  }

  method BuildVertices(m: MapState, cs: seq<CamDist>, w: Window) returns (vs: VertexSet)
    requires BuildReady(m, w)
    ensures vs == VertexSpec(m, cs, w)
  {
    var c := BuildCameras(m, cs, w);
    var l := BuildLandmarks(m, w, |c.dist| > 0, |c.cams|);
    vs := VertexSet(c.cams, c.fid2vid, c.vid2fid, c.dist, l.pt, l.vp, l.ln, l.pl);
  }

  method BuildRequests(m: MapState, cs: seq<CamDist>, w: Window, s: Settings, vs: VertexSet) returns (rq: Requests)
    requires BuildReady(m, w) && vs == VertexSpec(m, cs, w)
    ensures rq == RequestSpec(m, cs, w, s)
  {
    var pts := PointLandmarks(m.keyPoints);
    var vps := VpLandmarks(m.vanishingPoints);
    var lns := LineLandmarks(m.idealLines);
    LandmarksFit(m);
    var kptOpt := EnumerateObsEdges(PointObs, vs.pt.opt, pts, m.views, w.frontFrmIdx, s);
    var kptRpj := EnumerateObsEdges(PointObs, vs.pt.rpj, pts, m.views, w.frontFrmIdx, s);
    var vnpt := EnumerateObsEdges(VpObs, vs.vp.opt, vps, m.views, w.frontVptIdx, s);
    var lnOpt := EnumerateObsEdges(LineObs, vs.ln.opt, lns, m.views, w.frontFrmIdx, s);
    var lnRpj := EnumerateObsEdges(LineObs, vs.ln.rpj, lns, m.views, w.frontFrmIdx, s);
    var pp, lp := EnumeratePlaneEdges(m.primaryPlanes, vs.pl.opt, vs.pt.gid2vid, vs.ln.gid2vid, m.idealLines, s);
    rq := Requests(kptOpt + kptRpj, vnpt, lnOpt + lnRpj, pp, lp);
  }

  /** Build the problem of one call: vertices first, then every edge list in order. */
  method BuildProblem(m: MapState, cs: seq<CamDist>, w: Window, s: Settings) returns (res: Result<Problem>)
    requires BuildReady(m, w)
    ensures res == BuildSpec(m, cs, w, s)
  {
    var vs := BuildVertices(m, cs, w);
    var rq := BuildRequests(m, cs, w, s, vs);
    var t := TablesOf(vs);
    var kpt := ResolveEdges(rq.kpt, t);
    if kpt.Failure? { return Failure(kpt.error); }
    var vnpt := ResolveEdges(rq.vnpt, t);
    if vnpt.Failure? { return Failure(vnpt.error); }
    var line := ResolveEdges(rq.line, t);
    if line.Failure? { return Failure(line.error); }
    var pp := ResolveEdges(rq.ptPlane, t);
    if pp.Failure? { return Failure(pp.error); }
    var lp := ResolveEdges(rq.lnPlane, t);
    if lp.Failure? { return Failure(lp.error); }
    res := Success(Problem(Graph(AllVertices(vs), vs.dist, kpt.value, vnpt.value, line.value, pp.value, lp.value),
                           t, vs.vid2fid, |vs.dist| > 0));
  }

  // ---------------------------------------------------------------- properties

  function KindOfTable(id: TableId): VKind
  {
    match id
    case CamT => CamV
    case PtT => PointV
    case VpT => VpV
    case LnT => LineV
    case PlT => PlaneV
  }

  /** Every entry of the table names a vertex of the given kind standing for the key. */
  predicate TableNames(m: map<int, nat>, verts: seq<Vertex>, kind: VKind)
  {
    forall g :: g in m ==> m[g] < |verts| && verts[m[g]].kind == kind && verts[m[g]].entity == g
  }

  predicate TablesName(t: Tables, verts: seq<Vertex>)
  {
    forall id: TableId :: TableNames(TableOf(t, id), verts, KindOfTable(id))
  }

  lemma StageNames(all: seq<Vertex>, st: Stage, kind: VKind, base: nat)
    requires base + |st.verts| <= |all| && forall k :: 0 <= k < |st.verts| ==> all[base + k] == st.verts[k]
    requires forall k :: 0 <= k < |st.verts| ==> st.verts[k].kind == kind
    requires TablePointsInto(st.gid2vid, st.verts, base)
    ensures TableNames(st.gid2vid, all, kind)
  {
    forall g | g in st.gid2vid
      ensures st.gid2vid[g] < |all| && all[st.gid2vid[g]].kind == kind && all[st.gid2vid[g]].entity == g
    {
      assert all[base + (st.gid2vid[g] - base)] == st.verts[st.gid2vid[g] - base];
    }
  }

  /** Where each stage sits in the vertex list. */
  lemma Segments(vs: VertexSet)
    ensures var all := AllVertices(vs);
            var b1 := |vs.cams|;
            var b2 := b1 + |vs.pt.verts|;
            var b3 := b2 + |vs.vp.verts|;
            var b4 := b3 + |vs.ln.verts|;
            && |all| == b4 + |vs.pl.verts|
            && (forall k :: 0 <= k < b1 ==> all[k] == vs.cams[k])
            && (forall k :: 0 <= k < |vs.pt.verts| ==> all[b1 + k] == vs.pt.verts[k])
            && (forall k :: 0 <= k < |vs.vp.verts| ==> all[b2 + k] == vs.vp.verts[k])
            && (forall k :: 0 <= k < |vs.ln.verts| ==> all[b3 + k] == vs.ln.verts[k])
            && (forall k :: 0 <= k < |vs.pl.verts| ==> all[b4 + k] == vs.pl.verts[k])
  {
  }

  /** Where each stage sits in the vertex list (one lemma per stage keeps callers' contexts small). */
  lemma SegmentCams(vs: VertexSet)
    ensures |vs.cams| <= |AllVertices(vs)| && forall k :: 0 <= k < |vs.cams| ==> AllVertices(vs)[k] == vs.cams[k]
  {
  }

  lemma SegmentPt(vs: VertexSet)
    ensures var b := |vs.cams|;
            b + |vs.pt.verts| <= |AllVertices(vs)| &&
            forall k :: 0 <= k < |vs.pt.verts| ==> AllVertices(vs)[b + k] == vs.pt.verts[k]
  {
  }

  lemma SegmentVp(vs: VertexSet)
    ensures var b := |vs.cams| + |vs.pt.verts|;
            b + |vs.vp.verts| <= |AllVertices(vs)| &&
            forall k :: 0 <= k < |vs.vp.verts| ==> AllVertices(vs)[b + k] == vs.vp.verts[k]
  {
  }

  lemma SegmentLn(vs: VertexSet)
    ensures var b := |vs.cams| + |vs.pt.verts| + |vs.vp.verts|;
            b + |vs.ln.verts| <= |AllVertices(vs)| &&
            forall k :: 0 <= k < |vs.ln.verts| ==> AllVertices(vs)[b + k] == vs.ln.verts[k]
  {
  }

  lemma SegmentPl(vs: VertexSet)
    ensures var b := |vs.cams| + |vs.pt.verts| + |vs.vp.verts| + |vs.ln.verts|;
            b + |vs.pl.verts| == |AllVertices(vs)| &&
            forall k :: 0 <= k < |vs.pl.verts| ==> AllVertices(vs)[b + k] == vs.pl.verts[k]
  {
  }

  lemma CamTableNames(m: MapState, cs: seq<CamDist>, w: Window)
    requires BuildReady(m, w)
    ensures TableNames(VertexSpec(m, cs, w).fid2vid, AllVertices(VertexSpec(m, cs, w)), CamV)
  {
    var vs := VertexSpec(m, cs, w);
    var all := AllVertices(vs);
    SegmentCams(vs);
    forall g | g in vs.fid2vid
      ensures vs.fid2vid[g] < |all| && all[vs.fid2vid[g]].kind == CamV && all[vs.fid2vid[g]].entity == g
    {
      CamFixedRule(m.views, w, |vs.dist| > 0, vs.fid2vid[g]);
    }
  }

  lemma PointTableNames(m: MapState, cs: seq<CamDist>, w: Window)
    requires BuildReady(m, w)
    ensures TableNames(VertexSpec(m, cs, w).pt.gid2vid, AllVertices(VertexSpec(m, cs, w)), PointV)
  {
    PointStageNames(m.keyPoints, VertexSpec(m, cs, w), w);
  }

  lemma VpTableNames(m: MapState, cs: seq<CamDist>, w: Window)
    requires BuildReady(m, w)
    ensures TableNames(VertexSpec(m, cs, w).vp.gid2vid, AllVertices(VertexSpec(m, cs, w)), VpV)
  {
    VpStageNames(m.vanishingPoints, VertexSpec(m, cs, w), w.frontPosIdx);
  }

  lemma LineTableNames(m: MapState, cs: seq<CamDist>, w: Window)
    requires BuildReady(m, w)
    ensures TableNames(VertexSpec(m, cs, w).ln.gid2vid, AllVertices(VertexSpec(m, cs, w)), LineV)
  {
    LineStageNames(m.idealLines, VertexSpec(m, cs, w), w);
  }

  lemma PlaneTableNames(m: MapState, cs: seq<CamDist>, w: Window)
    requires BuildReady(m, w)
    ensures TableNames(VertexSpec(m, cs, w).pl.gid2vid, AllVertices(VertexSpec(m, cs, w)), PlaneV)
  {
    var vs := VertexSpec(m, cs, w);
    SegmentPl(vs);
    PlaneStageNames(AllVertices(vs), vs.pl, m.primaryPlanes, w.refId, w.frontPosIdx, vs.pt.gid2vid, vs.ln.gid2vid,
                    |vs.cams| + |vs.pt.verts| + |vs.vp.verts| + |vs.ln.verts|);
  }

  lemma PointStageNames(kps: seq<KeyPoint3d>, vs: VertexSet, w: Window)
    requires forall j :: 0 <= j < |kps| && kps[j].gid >= 0 ==> kps[j].gid == j
    requires vs.pt == LandmarkStage(PointLandmarks(kps), PointV, w.frontPosIdx, PointRule(w, |vs.dist| > 0), |vs.cams|)
    ensures TableNames(vs.pt.gid2vid, AllVertices(vs), PointV)
  {
    assert EligibleAtGid(PointLandmarks(kps));
    SegmentPt(vs);
    LandmarkStageNames(AllVertices(vs), vs.pt, PointLandmarks(kps), PointV, w.frontPosIdx, PointRule(w, |vs.dist| > 0), |vs.cams|);
  }

  lemma VpStageNames(vps: seq<VanishingPoint>, vs: VertexSet, fp: int)
    requires forall j :: 0 <= j < |vps| ==> vps[j].gid == j
    requires vs.vp == LandmarkStage(VpLandmarks(vps), VpV, fp, NeverFixed, |vs.cams| + |vs.pt.verts|)
    ensures TableNames(vs.vp.gid2vid, AllVertices(vs), VpV)
  {
    assert EligibleAtGid(VpLandmarks(vps));
    SegmentVp(vs);
    LandmarkStageNames(AllVertices(vs), vs.vp, VpLandmarks(vps), VpV, fp, NeverFixed, |vs.cams| + |vs.pt.verts|);
  }

  lemma LineStageNames(ils: seq<IdealLine3d>, vs: VertexSet, w: Window)
    requires forall j :: 0 <= j < |ils| && ils[j].gid >= 0 ==> ils[j].gid == j
    requires vs.ln == LandmarkStage(LineLandmarks(ils), LineV, w.frontPosIdx, LineRule(w, |vs.dist| > 0),
                                    |vs.cams| + |vs.pt.verts| + |vs.vp.verts|)
    ensures TableNames(vs.ln.gid2vid, AllVertices(vs), LineV)
  {
    assert EligibleAtGid(LineLandmarks(ils));
    SegmentLn(vs);
    LandmarkStageNames(AllVertices(vs), vs.ln, LineLandmarks(ils), LineV, w.frontPosIdx, LineRule(w, |vs.dist| > 0),
                       |vs.cams| + |vs.pt.verts| + |vs.vp.verts|);
  }

  /** A landmark stage placed at `base` in `all` names, for each key, the vertex standing for it. */
  lemma LandmarkStageNames(all: seq<Vertex>, st: Stage, items: seq<Landmark>, kind: VKind, fp: int, rule: FixRule, base: nat)
    requires EligibleAtGid(items) && st == LandmarkStage(items, kind, fp, rule, base)
    requires base + |st.verts| <= |all| && forall k :: 0 <= k < |st.verts| ==> all[base + k] == st.verts[k]
    ensures TableNames(st.gid2vid, all, kind)
  {
    LandmarkTablePointsInto(items, kind, fp, rule, base);
    StageNames(all, st, kind, base);
  }

  lemma PlaneStageNames(all: seq<Vertex>, st: Stage, pls: seq<PrimaryPlane>, refId: int, fp: int, ptT: map<int, nat>, lnT: map<int, nat>, base: nat)
    requires st == PlaneStage(pls, refId, fp, ptT, lnT, base)
    requires base + |st.verts| <= |all| && forall k :: 0 <= k < |st.verts| ==> all[base + k] == st.verts[k]
    ensures TableNames(st.gid2vid, all, PlaneV)
  {
    PlaneTablePointsInto(pls, refId, fp, ptT, lnT, base);
    PlaneStageFacts(pls, refId, fp, ptT, lnT, base);
    StageNames(all, st, PlaneV, base);
  }

  /** Each id table maps a key to the vertex of the matching kind that stands for that key:
      camfid2vid[i] is the camera of view i, ptgid2vid[g] the vertex of point g, and so on. */
  lemma VertexTables(m: MapState, cs: seq<CamDist>, w: Window)
    requires BuildReady(m, w)
    ensures TablesName(TablesOf(VertexSpec(m, cs, w)), AllVertices(VertexSpec(m, cs, w)))
  {
    CamTableNames(m, cs, w);
    PointTableNames(m, cs, w);
    VpTableNames(m, cs, w);
    LineTableNames(m, cs, w);
    PlaneTableNames(m, cs, w);
    var vs := VertexSpec(m, cs, w);
    forall id: TableId
      ensures TableNames(TableOf(TablesOf(vs), id), AllVertices(vs), KindOfTable(id))
    {
    }
  }

  /** A landmark stage placed at `base` in the vertex list: entity i has a vertex iff it
      is admitted, and the table entry of i names the vertex built for it. */
  lemma StageVertexInAll(all: seq<Vertex>, items: seq<Landmark>, kind: VKind, fp: int, rule: FixRule, base: nat, i: nat)
    requires EligibleAtGid(items) && i < |items|
    requires base + |LandmarkStage(items, kind, fp, rule, base).verts| <= |all|
    requires forall k :: 0 <= k < |LandmarkStage(items, kind, fp, rule, base).verts| ==>
      all[base + k] == LandmarkStage(items, kind, fp, rule, base).verts[k]
    ensures i in LandmarkStage(items, kind, fp, rule, base).gid2vid <==> Admitted(items[i], fp)
    ensures Admitted(items[i], fp) ==>
      (LandmarkStage(items, kind, fp, rule, base).gid2vid[i] < |all| &&
       all[LandmarkStage(items, kind, fp, rule, base).gid2vid[i]] == LandmarkVertex(items[i], kind, rule))
  {
    var st := LandmarkStage(items, kind, fp, rule, base);
    StageVertexAt(items, kind, fp, rule, base, i);
    if Admitted(items[i], fp) {
      assert all[base + (st.gid2vid[i] - base)] == st.verts[st.gid2vid[i] - base];
    }
  }

  /** Camera vertex k stands for view camLo + k; it is fixed iff the view is before
      max(1, frontPosIdx) and, once a distance edge exists, it is the window's first camera. */
  lemma CameraVertexRule(m: MapState, cs: seq<CamDist>, w: Window, k: nat)
    requires BuildReady(m, w) && k < CamCount(w)
    ensures var vs := VertexSpec(m, cs, w);
            var all := AllVertices(vs);
            && k < |vs.cams| && w.camLo + k in vs.fid2vid && vs.fid2vid[w.camLo + k] == k
            && all[k] == Vertex(CamV, w.camLo + k,
                                w.camLo + k < Max(1, w.frontPosIdx) && (|vs.dist| == 0 || k == 0),
                                PoseEst(m.views[w.camLo + k].r, m.views[w.camLo + k].t))
  {
    var vs := VertexSpec(m, cs, w);
    SegmentCams(vs);
    CamFixedRule(m.views, w, |vs.dist| > 0, k);
    assert CamVertices(m.views, w)[k] == CamVertex(m.views[w.camLo + k], w.camLo + k, w);
  }

  /** Point i has a vertex iff it is triangulated, registered and observed at or after
      frontPosIdx; the vertex holds its position and is fixed iff it was first seen before
      frontFrmIdx, was estimated before the reference view, and no distance edge exists. */
  lemma PointVertexRule(m: MapState, cs: seq<CamDist>, w: Window, i: nat)
    requires BuildReady(m, w) && i < |m.keyPoints|
    ensures var vs := VertexSpec(m, cs, w);
            var kp := m.keyPoints[i];
            && (i in vs.pt.gid2vid <==> kp.is3D && kp.gid >= 0 && SeenFrom(kp.obs, w.frontPosIdx))
            && (i in vs.pt.gid2vid ==>
                  vs.pt.gid2vid[i] < |AllVertices(vs)| &&
                  AllVertices(vs)[vs.pt.gid2vid[i]] ==
                    Vertex(PointV, i,
                           |kp.obs| > 0 && kp.obs[0].view < w.frontFrmIdx && kp.estViewId < w.refId && |vs.dist| == 0,
                           XyzEst(kp.pos)))
  {
    PointStageRule(m.keyPoints, VertexSpec(m, cs, w), w, i);
  }

  /** The point stage placed after the cameras: point i has a vertex iff it is admitted,
      and that vertex carries the point's position and the stale-point fixing rule. */
  lemma PointStageRule(kps: seq<KeyPoint3d>, vs: VertexSet, w: Window, i: nat)
    requires (forall j :: 0 <= j < |kps| && kps[j].gid >= 0 ==> kps[j].gid == j) && i < |kps|
    requires vs.pt == LandmarkStage(PointLandmarks(kps), PointV, w.frontPosIdx, PointRule(w, |vs.dist| > 0), |vs.cams|)
    ensures i in vs.pt.gid2vid <==> kps[i].is3D && kps[i].gid >= 0 && SeenFrom(kps[i].obs, w.frontPosIdx)
    ensures i in vs.pt.gid2vid ==>
              vs.pt.gid2vid[i] < |AllVertices(vs)| &&
              AllVertices(vs)[vs.pt.gid2vid[i]] ==
                Vertex(PointV, i,
                       |kps[i].obs| > 0 && kps[i].obs[0].view < w.frontFrmIdx && kps[i].estViewId < w.refId && |vs.dist| == 0,
                       XyzEst(kps[i].pos))
  {
    var items := PointLandmarks(kps);
    assert EligibleAtGid(items);
    SegmentPt(vs);
    StageVertexInAll(AllVertices(vs), items, PointV, w.frontPosIdx, PointRule(w, |vs.dist| > 0), |vs.cams|, i);
  }

  /** Every vanishing point observed at or after frontPosIdx has a vertex, never fixed. */
  lemma VpVertexRule(m: MapState, cs: seq<CamDist>, w: Window, i: nat)
    requires BuildReady(m, w) && i < |m.vanishingPoints|
    ensures var vs := VertexSpec(m, cs, w);
            var vp := m.vanishingPoints[i];
            && (i in vs.vp.gid2vid <==> SeenFrom(vp.obs, w.frontPosIdx))
            && (i in vs.vp.gid2vid ==>
                  vs.vp.gid2vid[i] < |AllVertices(vs)| &&
                  AllVertices(vs)[vs.vp.gid2vid[i]] == Vertex(VpV, i, false, XyzEst(vp.pos)))
  {
    VpStageRule(m.vanishingPoints, VertexSpec(m, cs, w), w.frontPosIdx, i);
  }

  lemma VpStageRule(vps: seq<VanishingPoint>, vs: VertexSet, fp: int, i: nat)
    requires (forall j :: 0 <= j < |vps| ==> vps[j].gid == j) && i < |vps|
    requires vs.vp == LandmarkStage(VpLandmarks(vps), VpV, fp, NeverFixed, |vs.cams| + |vs.pt.verts|)
    ensures i in vs.vp.gid2vid <==> SeenFrom(vps[i].obs, fp)
    ensures i in vs.vp.gid2vid ==>
              vs.vp.gid2vid[i] < |AllVertices(vs)| && AllVertices(vs)[vs.vp.gid2vid[i]] == Vertex(VpV, i, false, XyzEst(vps[i].pos))
  {
    var items := VpLandmarks(vps);
    assert EligibleAtGid(items);
    SegmentVp(vs);
    StageVertexInAll(AllVertices(vs), items, VpV, fp, NeverFixed, |vs.cams| + |vs.pt.verts|, i);
  }

  /** Line i has a mid-point vertex iff it is triangulated, registered and observed at or
      after frontPosIdx; it is fixed by the point rule, except that a distance edge blocks
      fixing only when the window says lines heed it. */
  lemma LineVertexRule(m: MapState, cs: seq<CamDist>, w: Window, i: nat)
    requires BuildReady(m, w) && i < |m.idealLines|
    ensures var vs := VertexSpec(m, cs, w);
            var il := m.idealLines[i];
            && (i in vs.ln.gid2vid <==> il.is3D && il.gid >= 0 && SeenFrom(il.obs, w.frontPosIdx))
            && (i in vs.ln.gid2vid ==>
                  vs.ln.gid2vid[i] < |AllVertices(vs)| &&
                  AllVertices(vs)[vs.ln.gid2vid[i]] ==
                    Vertex(LineV, i,
                           |il.obs| > 0 && il.obs[0].view < w.frontFrmIdx && il.estViewId < w.refId &&
                           !(w.lineFixHonoursDist && |vs.dist| > 0),
                           XyzEst(il.midpt)))
  {
    LineStageRule(m.idealLines, VertexSpec(m, cs, w), w, i);
  }

  lemma LineStageRule(ils: seq<IdealLine3d>, vs: VertexSet, w: Window, i: nat)
    requires (forall j :: 0 <= j < |ils| && ils[j].gid >= 0 ==> ils[j].gid == j) && i < |ils|
    requires vs.ln == LandmarkStage(LineLandmarks(ils), LineV, w.frontPosIdx, LineRule(w, |vs.dist| > 0),
                                    |vs.cams| + |vs.pt.verts| + |vs.vp.verts|)
    ensures i in vs.ln.gid2vid <==> ils[i].is3D && ils[i].gid >= 0 && SeenFrom(ils[i].obs, w.frontPosIdx)
    ensures i in vs.ln.gid2vid ==>
              vs.ln.gid2vid[i] < |AllVertices(vs)| &&
              AllVertices(vs)[vs.ln.gid2vid[i]] ==
                Vertex(LineV, i,
                       |ils[i].obs| > 0 && ils[i].obs[0].view < w.frontFrmIdx && ils[i].estViewId < w.refId &&
                       !(w.lineFixHonoursDist && |vs.dist| > 0),
                       XyzEst(ils[i].midpt))
  {
    var items := LineLandmarks(ils);
    assert EligibleAtGid(items);
    SegmentLn(vs);
    StageVertexInAll(AllVertices(vs), items, LineV, w.frontPosIdx, LineRule(w, |vs.dist| > 0), |vs.cams| + |vs.pt.verts| + |vs.vp.verts|, i);
  }

  /** Plane i has a vertex iff it is at least three views older than the reference view
      and lists a point or a line that has a vertex; the vertex is fixed iff the plane was
      estimated before frontPosIdx. */
  lemma PlaneVertexRule(m: MapState, cs: seq<CamDist>, w: Window, i: nat)
    requires BuildReady(m, w) && i < |m.primaryPlanes|
    ensures var vs := VertexSpec(m, cs, w);
            var pl := m.primaryPlanes[i];
            && (i in vs.pl.gid2vid <==>
                  w.refId - pl.estViewId >= 3 && (AnyIn(pl.kptGids, vs.pt.gid2vid) || AnyIn(pl.ilnGids, vs.ln.gid2vid)))
            && (i in vs.pl.gid2vid ==>
                  vs.pl.gid2vid[i] < |AllVertices(vs)| &&
                  AllVertices(vs)[vs.pl.gid2vid[i]] ==
                    Vertex(PlaneV, i, pl.estViewId < w.frontPosIdx, PlaneEst(pl.n, pl.d)))
  {
    PlaneStageRule(m.primaryPlanes, w.refId, w.frontPosIdx, VertexSpec(m, cs, w), i);
  }

  lemma PlaneStageRule(pls: seq<PrimaryPlane>, refId: int, fp: int, vs: VertexSet, i: nat)
    requires i < |pls|
    requires vs.pl == PlaneStage(pls, refId, fp, vs.pt.gid2vid, vs.ln.gid2vid, |vs.cams| + |vs.pt.verts| + |vs.vp.verts| + |vs.ln.verts|)
    ensures i in vs.pl.gid2vid <==>
              refId - pls[i].estViewId >= 3 && (AnyIn(pls[i].kptGids, vs.pt.gid2vid) || AnyIn(pls[i].ilnGids, vs.ln.gid2vid))
    ensures i in vs.pl.gid2vid ==>
              vs.pl.gid2vid[i] < |AllVertices(vs)| &&
              AllVertices(vs)[vs.pl.gid2vid[i]] == Vertex(PlaneV, i, pls[i].estViewId < fp, PlaneEst(pls[i].n, pls[i].d))
  {
    SegmentPl(vs);
    PlaneRuleAt(pls, refId, fp, vs.pt.gid2vid, vs.ln.gid2vid, |vs.cams| + |vs.pt.verts| + |vs.vp.verts| + |vs.ln.verts|,
                vs.pl, AllVertices(vs), i);
  }

  /** The plane stage `st` sits at `base` in `all`: plane i has a vertex iff it is
      admitted, and that vertex is its plane vertex. */
  lemma PlaneRuleAt(pls: seq<PrimaryPlane>, refId: int, fp: int, ptT: map<int, nat>, lnT: map<int, nat>, base: nat,
                    st: Stage, all: seq<Vertex>, i: nat)
    requires i < |pls|
    requires st == PlaneStage(pls, refId, fp, ptT, lnT, base)
    requires base + |st.verts| == |all| && forall k :: 0 <= k < |st.verts| ==> all[base + k] == st.verts[k]
    ensures i in st.gid2vid <==> PlaneAdmitted(pls[i], refId, ptT, lnT)
    ensures i in st.gid2vid ==>
              st.gid2vid[i] < |all| && all[st.gid2vid[i]] == Vertex(PlaneV, i, pls[i].estViewId < fp, PlaneEst(pls[i].n, pls[i].d))
  {
    var f := PlaneFlags(pls, refId, ptT, lnT);
    PlaneStageTable(pls, refId, fp, ptT, lnT, base);
    PlaneStageLists(pls, refId, fp, ptT, lnT, base);
    PlaneStageVerts(pls, refId, fp, ptT, lnT, base);
    if i in st.gid2vid {
      RankedVertexAt(st, f, base, all, i);
      var r := Rank(f, i);
      assert st.verts[r] == PlaneVertex(pls[st.opt[r]], st.opt[r], fp);
    }
  }

  /** In a ranked stage placed at `base` in `all`, the table entry of i is the vertex
      at i's rank, and that slot of the stage lists i. */
  lemma RankedVertexAt(st: Stage, f: seq<bool>, base: nat, all: seq<Vertex>, i: int)
    requires RankedTable(st.gid2vid, f, base) && st.opt == Select(f) && |st.verts| == |st.opt|
    requires base + |st.verts| == |all| && forall k :: 0 <= k < |st.verts| ==> all[base + k] == st.verts[k]
    requires i in st.gid2vid
    ensures 0 <= i < |f| && Rank(f, i) < |st.verts| && st.opt[Rank(f, i)] == i
    ensures st.gid2vid[i] < |all| && all[st.gid2vid[i]] == st.verts[Rank(f, i)]
  {
    SelectAtRank(f, i);
  }

  /** The edge is request `r` with each endpoint bound to the vertex standing for that endpoint's key. */
  predicate EdgeNames(e: Edge, r: Request, verts: seq<Vertex>)
  {
    && e.kind == r.kind && e.meas == r.meas && e.info == r.info && e.kernel == r.kernel
    && |e.verts| == |r.ends|
    && forall j :: 0 <= j < |e.verts| ==>
         (e.verts[j] < |verts| && verts[e.verts[j]].kind == KindOfTable(r.ends[j].table) &&
          verts[e.verts[j]].entity == r.ends[j].id)
  }

  lemma ResolvedEdgesName(reqs: seq<Request>, t: Tables, verts: seq<Vertex>)
    requires TablesName(t, verts) && ResolveAll(reqs, t).Success?
    ensures |ResolveAll(reqs, t).value| == |reqs|
    ensures forall k :: 0 <= k < |reqs| ==> EdgeNames(ResolveAll(reqs, t).value[k], reqs[k], verts)
  {
    ResolveAllSpec(reqs, t);
    forall k | 0 <= k < |reqs|
      ensures EdgeNames(ResolveAll(reqs, t).value[k], reqs[k], verts)
    {
      var r := reqs[k];
      var e := ResolveAll(reqs, t).value[k];
      forall j | 0 <= j < |e.verts|
        ensures e.verts[j] < |verts| && verts[e.verts[j]].kind == KindOfTable(r.ends[j].table)
        ensures verts[e.verts[j]].entity == r.ends[j].id
      {
        assert TableNames(TableOf(t, r.ends[j].table), verts, KindOfTable(r.ends[j].table));
      }
    }
  }

  /** Every edge of a built problem is its request with each endpoint bound to the vertex
      of the entity the request names (the cited point, line, vanishing point, plane or view). */
  lemma BuildEdgesName(m: MapState, cs: seq<CamDist>, w: Window, s: Settings)
    requires BuildReady(m, w) && BuildSpec(m, cs, w, s).Success?
    ensures var g := BuildSpec(m, cs, w, s).value.graph;
            var rq := RequestSpec(m, cs, w, s);
            && g.verts == AllVertices(VertexSpec(m, cs, w))
            && |g.kpt| == |rq.kpt| && |g.vnpt| == |rq.vnpt| && |g.line| == |rq.line|
            && |g.ptPlane| == |rq.ptPlane| && |g.lnPlane| == |rq.lnPlane|
            && (forall k :: 0 <= k < |g.kpt| ==> EdgeNames(g.kpt[k], rq.kpt[k], g.verts))
            && (forall k :: 0 <= k < |g.vnpt| ==> EdgeNames(g.vnpt[k], rq.vnpt[k], g.verts))
            && (forall k :: 0 <= k < |g.line| ==> EdgeNames(g.line[k], rq.line[k], g.verts))
            && (forall k :: 0 <= k < |g.ptPlane| ==> EdgeNames(g.ptPlane[k], rq.ptPlane[k], g.verts))
            && (forall k :: 0 <= k < |g.lnPlane| ==> EdgeNames(g.lnPlane[k], rq.lnPlane[k], g.verts))
  {
    var vs := VertexSpec(m, cs, w);
    var rq := RequestSpec(m, cs, w, s);
    var t := TablesOf(vs);
    var all := AllVertices(vs);
    VertexTables(m, cs, w);
    ResolvedEdgesName(rq.kpt, t, all);
    ResolvedEdgesName(rq.vnpt, t, all);
    ResolvedEdgesName(rq.line, t, all);
    ResolvedEdgesName(rq.ptPlane, t, all);
    ResolvedEdgesName(rq.lnPlane, t, all);
  }

  /** Every request of the list can be bound. */
  predicate AllBindable(reqs: seq<Request>, t: Tables)
  {
    forall k :: 0 <= k < |reqs| ==> Resolvable(reqs[k], t) && !KernelMissing(reqs[k])
  }

  /** Building succeeds exactly when every endpoint of every requested edge has a vertex
      and every line-plane edge has its robust kernel. */
  lemma BuildSucceedsIff(m: MapState, cs: seq<CamDist>, w: Window, s: Settings)
    requires BuildReady(m, w)
    ensures var rq := RequestSpec(m, cs, w, s);
            var t := TablesOf(VertexSpec(m, cs, w));
            BuildSpec(m, cs, w, s).Success? <==>
              (AllBindable(rq.kpt, t) && AllBindable(rq.vnpt, t) && AllBindable(rq.line, t) &&
               AllBindable(rq.ptPlane, t) && AllBindable(rq.lnPlane, t))
  {
    BuildFromSucceedsIff(VertexSpec(m, cs, w), RequestSpec(m, cs, w, s));
  }

  lemma BuildFromSucceedsIff(vs: VertexSet, rq: Requests)
    ensures var t := TablesOf(vs);
            BuildFrom(vs, rq).Success? <==>
              (AllBindable(rq.kpt, t) && AllBindable(rq.vnpt, t) && AllBindable(rq.line, t) &&
               AllBindable(rq.ptPlane, t) && AllBindable(rq.lnPlane, t))
  {
    var t := TablesOf(vs);
    ResolveAllSpec(rq.kpt, t);
    ResolveAllSpec(rq.vnpt, t);
    ResolveAllSpec(rq.line, t);
    ResolveAllSpec(rq.ptPlane, t);
    ResolveAllSpec(rq.lnPlane, t);
  }
}
