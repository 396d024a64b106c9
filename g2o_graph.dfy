/** The g2o optimisation graph that local bundle adjustment builds: vertices
    (camera poses, points, vanishing points, line mid-points, planes), typed
    edges, and the specification of which map entities become vertices and
    whether each vertex is fixed. */
module G2oGraph {
  import opened SeqUtil
  import opened Entities
  import opened Windows

  /** The tunables the g2o back end reads from the settings object. */
  datatype Settings = Settings(
    numVpFrm: int, useKernel: bool,
    deltaPoint: real, deltaVPoint: real, deltaLine: real, deltaPlane: real,
    weightVPoint: real, weightLine: real, weightPlane: real)

  datatype VKind = CamV | PointV | VpV | LineV | PlaneV

  /** A vertex estimate: a camera pose, a 3D position, or a plane n.X = d. */
  datatype Estimate = PoseEst(r: Rotation, t: Vec3) | XyzEst(p: Vec3) | PlaneEst(n: Vec3, d: real)

  /** A g2o vertex; its id is its position in the vertex list.  `entity` is the
      view index (cameras), the global id (points, vanishing points, lines) or
      the plane index (planes) the vertex stands for. */
  datatype Vertex = Vertex(kind: VKind, entity: int, fixed: bool, est: Estimate)

  datatype EKind = CamDistE | PointCamE | VpCamE | LineVpCamE | PointPlaneE | LinePlaneE

  /** What an edge measures: a camera distance, a pixel, a vanishing-point
      detection, the segment endpoints of a 2D line, a point-on-plane constraint,
      or the extremities of line `line` lying on a plane. */
  datatype Meas = DistM(d: real) | PixelM(p: Point2) | VpM(det: VpDetection) | SegM(segpts: seq<Point2>)
                | PlaneM | LinePlaneM(line: int)

  /** Information matrix: `w` times the identity, or the diagonal diag(a, b). */
  datatype Info = Scaled(w: real) | Diag2(a: real, b: real)

  /** Robust kernel; `HuberRoot2(d)` is a Huber kernel of width d * sqrt(2). */
  datatype Kernel = NoKernel | Huber(delta: real) | HuberRoot2(delta: real)

  /** An edge over the vertices with the given ids. */
  datatype Edge = Edge(kind: EKind, verts: seq<nat>, meas: Meas, info: Info, kernel: Kernel)

  /** The graph with its edges grouped as the source keeps them. */
  datatype Graph = Graph(
    verts: seq<Vertex>,
    dist: seq<Edge>, kpt: seq<Edge>, vnpt: seq<Edge>, line: seq<Edge>,
    ptPlane: seq<Edge>, lnPlane: seq<Edge>)

  function KernelIf(use: bool, delta: real): Kernel { if use then Huber(delta) else NoKernel }

  // ---------------------------------------------------------------- cameras

  function CamCount(w: Window): nat { if w.camHi <= w.camLo then 0 else w.camHi - w.camLo }

  /** The camera window lies inside the view list. */
  predicate CamRangeOk(views: seq<View>, w: Window)
  {
    0 <= w.camLo && (w.camHi <= w.camLo || w.camHi <= |views|)
  }

  /** The camera vertex of view i, pinned when i < 1 or i < frontPosIdx. */
  function CamVertex(v: View, i: int, w: Window): Vertex
  {
    Vertex(CamV, i, i < 1 || i < w.frontPosIdx, PoseEst(v.r, v.t))
  }

  /** One camera vertex per view of [camLo, camHi), in order, with ids 0, 1, ... */
  function CamVertices(views: seq<View>, w: Window): (r: seq<Vertex>)
    requires CamRangeOk(views, w)
    ensures |r| == CamCount(w)
  {
    seq(CamCount(w), k requires 0 <= k < CamCount(w) => CamVertex(views[w.camLo + k], w.camLo + k, w))
  }

  /** `camfid2vid` after `count` cameras from view `lo`: view index to vertex id. */
  function CamFid2Vid(lo: int, count: nat): (r: map<int, nat>)
    ensures forall i :: i in r <==> lo <= i < lo + count
    ensures forall i :: i in r ==> r[i] == i - lo
    decreases count
  {
    if count == 0 then map[] else CamFid2Vid(lo, count - 1)[lo + count - 1 := count - 1]
  }

  /** `camvid2fid` after `count` cameras from view `lo`: vertex id to view index. */
  function CamVid2Fid(lo: int, count: nat): (r: map<nat, int>)
    ensures forall k: nat :: k in r <==> k < count
    ensures forall k: nat :: k in r ==> r[k] == lo + k
    decreases count
  {
    if count == 0 then map[] else CamVid2Fid(lo, count - 1)[count - 1 := lo + count - 1]
  }

  // ------------------------------------------------- camera-distance edges

  predicate DistUsable(c: CamDist, fid2vid: map<int, nat>)
  {
    c.viewA in fid2vid && c.viewB in fid2vid
  }

  function DistEdge(c: CamDist, fid2vid: map<int, nat>): Edge
    requires DistUsable(c, fid2vid)
  {
    Edge(CamDistE, [fid2vid[c.viewA], fid2vid[c.viewB]], DistM(c.dist), Scaled(c.weight), NoKernel)
  }

  /** First log entry consulted when the newest `span` entries are. */
  function DistLo(cs: seq<CamDist>, span: int): nat { Max(0, |cs| - span) }

  /** The distance edges of log entries [lo, hi), visited from hi - 1 downwards. */
  function DistEdges(cs: seq<CamDist>, lo: nat, hi: nat, fid2vid: map<int, nat>): (r: seq<Edge>)
    requires hi <= |cs|
    ensures |r| <= (if hi <= lo then 0 else hi - lo)
    decreases hi - lo
  {
    if lo >= hi then []
    else DistEdges(cs, lo + 1, hi, fid2vid) + (if DistUsable(cs[lo], fid2vid) then [DistEdge(cs[lo], fid2vid)] else [])
  }

  /** Every distance edge comes from a consulted entry both of whose views have a
      camera vertex, and some edge exists exactly when some consulted entry is usable. */
  lemma {:induction false} DistEdgesFromWindow(cs: seq<CamDist>, lo: nat, hi: nat, fid2vid: map<int, nat>)
    requires hi <= |cs|
    ensures forall e :: e in DistEdges(cs, lo, hi, fid2vid) ==>
      exists i :: lo <= i < hi && DistUsable(cs[i], fid2vid) && e == DistEdge(cs[i], fid2vid)
    ensures |DistEdges(cs, lo, hi, fid2vid)| > 0 <==> exists i :: lo <= i < hi && DistUsable(cs[i], fid2vid)
    decreases hi - lo
  {
    if lo < hi {
      DistEdgesFromWindow(cs, lo + 1, hi, fid2vid);
    }
  }

  /** After a distance edge is added, every camera vertex but the first of the window is unfixed. */
  function Unfix(cams: seq<Vertex>, hasDist: bool): (r: seq<Vertex>)
    ensures |r| == |cams|
  {
    if hasDist then seq(|cams|, k requires 0 <= k < |cams| => if k > 0 then cams[k].(fixed := false) else cams[k])
    else cams
  }

  /** The fixing rule of the final camera vertices: vertex k stands for view camLo + k and
      is fixed iff that view is before max(1, frontPosIdx) and, once a distance edge
      exists, it is also the first camera of the window. */
  lemma CamFixedRule(views: seq<View>, w: Window, hasDist: bool, k: nat)
    requires CamRangeOk(views, w) && k < CamCount(w)
    ensures Unfix(CamVertices(views, w), hasDist)[k].kind == CamV
    ensures Unfix(CamVertices(views, w), hasDist)[k].entity == w.camLo + k
    ensures Unfix(CamVertices(views, w), hasDist)[k].fixed <==>
      (w.camLo + k < Max(1, w.frontPosIdx) && (!hasDist || k == 0))
  {
    var cams := CamVertices(views, w);
    assert cams[k] == CamVertex(views[w.camLo + k], w.camLo + k, w);
  }

  // ------------------------------------------------ points, VPs and lines

  /** What vertex admission needs to know about a point, ideal line or vanishing
      point; `vp` is the line's vanishing point (0 for the other kinds). */
  datatype Landmark = Landmark(gid: int, eligible: bool, obs: seq<Obs>, estViewId: int, pos: Vec3, vp: int)

  /** Only triangulated points with a global id take part. */
  function PointLandmark(kp: KeyPoint3d): Landmark
  {
    Landmark(kp.gid, kp.is3D && kp.gid >= 0, kp.obs, kp.estViewId, kp.pos, 0)
  }

  function LineLandmark(il: IdealLine3d): Landmark
  {
    Landmark(il.gid, il.is3D && il.gid >= 0, il.obs, il.estViewId, il.midpt, il.vpGid)
  }

  /** Every vanishing point is eligible. */
  function VpLandmark(vp: VanishingPoint): Landmark
  {
    Landmark(vp.gid, true, vp.obs, 0, vp.pos, 0)
  }

  function PointLandmarks(kps: seq<KeyPoint3d>): (r: seq<Landmark>)
    ensures |r| == |kps| && forall i :: 0 <= i < |kps| ==> r[i] == PointLandmark(kps[i])
  {
    seq(|kps|, i requires 0 <= i < |kps| => PointLandmark(kps[i]))
  }

  function LineLandmarks(ils: seq<IdealLine3d>): (r: seq<Landmark>)
    ensures |r| == |ils| && forall i :: 0 <= i < |ils| ==> r[i] == LineLandmark(ils[i])
  {
    seq(|ils|, i requires 0 <= i < |ils| => LineLandmark(ils[i]))
  }

  function VpLandmarks(vps: seq<VanishingPoint>): (r: seq<Landmark>)
    ensures |r| == |vps| && forall i :: 0 <= i < |vps| ==> r[i] == VpLandmark(vps[i])
  {
    seq(|vps|, i requires 0 <= i < |vps| => VpLandmark(vps[i]))
  }

  /** A landmark gets a vertex iff it is eligible and observed at or after frontPosIdx. */
  predicate Admitted(l: Landmark, frontPosIdx: int)
  {
    l.eligible && SeenFrom(l.obs, frontPosIdx)
  }

  /** How an admitted landmark's vertex is fixed: never (vanishing points), or when
      it was first seen before frontFrmIdx, was estimated before the reference view,
      and `blocked` (an active distance constraint) does not forbid it. */
  datatype FixRule = NeverFixed | FixStale(frontFrmIdx: int, refId: int, blocked: bool)

  predicate Pinned(l: Landmark, rule: FixRule)
  {
    match rule
    case NeverFixed => false
    case FixStale(frm, refId, blocked) => |l.obs| > 0 && l.obs[0].view < frm && l.estViewId < refId && !blocked
  }

  /** The result of one admission loop: the new vertices, the gid->vid and vid->gid
      tables, and the indices of admitted entities that are optimised (`opt`) or
      only reprojected (`rpj`). */
  datatype Stage = Stage(verts: seq<Vertex>, gid2vid: map<int, nat>, vid2gid: map<nat, int>, opt: seq<nat>, rpj: seq<nat>)

  function LandmarkVertex(l: Landmark, kind: VKind, rule: FixRule): Vertex
  {
    Vertex(kind, l.gid, Pinned(l, rule), XyzEst(l.pos))
  }

  /** The admission loop over `items`, vertex ids starting at `base`: the k-th new
      vertex has id base + k and vid2gid maps it back to the entity it stands for. */
  function LandmarkStage(items: seq<Landmark>, kind: VKind, fp: int, rule: FixRule, base: nat): (r: Stage)
    ensures |r.opt| + |r.rpj| == |r.verts| <= |items|
    ensures forall k :: 0 <= k < |r.opt| ==> r.opt[k] < |items|
    ensures forall k :: 0 <= k < |r.rpj| ==> r.rpj[k] < |items|
    ensures forall k :: 0 <= k < |r.verts| ==> r.verts[k].kind == kind
    decreases |items|
  {
    if items == [] then Stage([], map[], map[], [], [])
    else
      var i := |items| - 1;
      var s := LandmarkStage(items[..i], kind, fp, rule, base);
      AdmitStep(s, items[i], i, kind, fp, rule, base + |s.verts|)
  }

  /** One pass of the admission loop: an eligible entity seen at or after fp gets
      vertex id `vid` and joins the optimised or the reproject-only list. */
  function AdmitStep(s: Stage, l: Landmark, i: nat, kind: VKind, fp: int, rule: FixRule, vid: nat): Stage
  {
    if !Admitted(l, fp) then s
    else
      var pinned := Pinned(l, rule);
      Stage(s.verts + [LandmarkVertex(l, kind, rule)],
            s.gid2vid[l.gid := vid], s.vid2gid[vid := l.gid],
            if pinned then s.opt else s.opt + [i],
            if pinned then s.rpj + [i] else s.rpj)
  }

  /** The vid->gid table of a stage holds exactly the ids base .. base + |verts| - 1,
      the k-th naming `names[k]`. */
  ghost predicate VidTable(r: Stage, base: nat, names: seq<int>)
    requires |names| == |r.verts|
  {
    && (forall v: nat :: v in r.vid2gid <==> base <= v < base + |r.verts|)
    && (forall k :: 0 <= k < |r.verts| ==> r.vid2gid[base + k] == names[k])
  }

  function EntityIds(vs: seq<Vertex>): (e: seq<int>)
    ensures |e| == |vs| && forall k :: 0 <= k < |vs| ==> e[k] == vs[k].entity
  {
    seq(|vs|, k requires 0 <= k < |vs| => vs[k].entity)
  }

  /** vid2gid holds exactly the new vertex ids, each naming its vertex's entity. */
  lemma {:induction false} LandmarkStageVids(items: seq<Landmark>, kind: VKind, fp: int, rule: FixRule, base: nat)
    ensures VidTable(LandmarkStage(items, kind, fp, rule, base), base, EntityIds(LandmarkStage(items, kind, fp, rule, base).verts))
    decreases |items|
  {
    if items != [] {
      var i := |items| - 1;
      LandmarkStageVids(items[..i], kind, fp, rule, base);
      var s := LandmarkStage(items[..i], kind, fp, rule, base);
      var r := LandmarkStage(items, kind, fp, rule, base);
      if Admitted(items[i], fp) {
        assert r.vid2gid == s.vid2gid[base + |s.verts| := items[i].gid];
        assert r.verts == s.verts + [LandmarkVertex(items[i], kind, rule)];
        forall k | 0 <= k < |r.verts|
          ensures r.vid2gid[base + k] == r.verts[k].entity
        {
          if k < |s.verts| {
            assert r.verts[k] == s.verts[k];
            assert s.vid2gid[base + k] == s.verts[k].entity;
          }
        }
      }
    }
  }

  function AdmitFlags(items: seq<Landmark>, fp: int): (f: seq<bool>)
    ensures |f| == |items| && forall i :: 0 <= i < |items| ==> f[i] == Admitted(items[i], fp)
  {
    seq(|items|, i requires 0 <= i < |items| => Admitted(items[i], fp))
  }

  function OptFlags(items: seq<Landmark>, fp: int, rule: FixRule): (f: seq<bool>)
    ensures |f| == |items| && forall i :: 0 <= i < |items| ==> f[i] == (Admitted(items[i], fp) && !Pinned(items[i], rule))
  {
    seq(|items|, i requires 0 <= i < |items| => Admitted(items[i], fp) && !Pinned(items[i], rule))
  }

  function RpjFlags(items: seq<Landmark>, fp: int, rule: FixRule): (f: seq<bool>)
    ensures |f| == |items| && forall i :: 0 <= i < |items| ==> f[i] == (Admitted(items[i], fp) && Pinned(items[i], rule))
  {
    seq(|items|, i requires 0 <= i < |items| => Admitted(items[i], fp) && Pinned(items[i], rule))
  }

  lemma FlagsPrefix(items: seq<Landmark>, fp: int, rule: FixRule, n: nat)
    requires n <= |items|
    ensures AdmitFlags(items[..n], fp) == AdmitFlags(items, fp)[..n]
    ensures OptFlags(items[..n], fp, rule) == OptFlags(items, fp, rule)[..n]
    ensures RpjFlags(items[..n], fp, rule) == RpjFlags(items, fp, rule)[..n]
  {
  }

  /** Registered entities sit at the index equal to their global id. */
  predicate EligibleAtGid(items: seq<Landmark>)
  {
    forall i :: 0 <= i < |items| && items[i].eligible ==> items[i].gid == i
  }

  /** The admission loop lists the optimised and the reproject-only entities in index order. */
  lemma {:induction false} LandmarkStageLists(items: seq<Landmark>, kind: VKind, fp: int, rule: FixRule, base: nat)
    ensures LandmarkStage(items, kind, fp, rule, base).opt == Select(OptFlags(items, fp, rule))
    ensures LandmarkStage(items, kind, fp, rule, base).rpj == Select(RpjFlags(items, fp, rule))
    decreases |items|
  {
    if items != [] {
      var n := |items| - 1;
      LandmarkStageLists(items[..n], kind, fp, rule, base);
      FlagsPrefix(items, fp, rule, n);
      var o := OptFlags(items, fp, rule);
      var p := RpjFlags(items, fp, rule);
      SelectSnoc(o, n);
      SelectSnoc(p, n);
      assert o[..n + 1] == o;
      assert p[..n + 1] == p;
    }
  }

  /** The k-th vertex of the admission loop stands for the k-th admitted entity and is
      fixed exactly when the rule pins that entity. */
  lemma {:induction false} LandmarkStageVerts(items: seq<Landmark>, kind: VKind, fp: int, rule: FixRule, base: nat)
    ensures StageVertsFor(items, LandmarkStage(items, kind, fp, rule, base).verts, kind, fp, rule)
    decreases |items|
  {
    if items != [] {
      LandmarkStageVerts(items[..|items| - 1], kind, fp, rule, base);
      LandmarkStageVertsNext(items, kind, fp, rule, base);
    }
  }

  /** `verts` holds, in order, the vertex of each admitted entity of `items`. */
  predicate StageVertsFor(items: seq<Landmark>, verts: seq<Vertex>, kind: VKind, fp: int, rule: FixRule)
  {
    var sel := Select(AdmitFlags(items, fp));
    |verts| == |sel| && forall k :: 0 <= k < |sel| ==> verts[k] == LandmarkVertex(items[sel[k]], kind, rule)
  }

  lemma LandmarkStageVertsNext(items: seq<Landmark>, kind: VKind, fp: int, rule: FixRule, base: nat)
    requires items != []
    requires StageVertsFor(items[..|items| - 1], LandmarkStage(items[..|items| - 1], kind, fp, rule, base).verts, kind, fp, rule)
    ensures StageVertsFor(items, LandmarkStage(items, kind, fp, rule, base).verts, kind, fp, rule)
  {
    var n := |items| - 1;
    var a := AdmitFlags(items, fp);
    var v := LandmarkStage(items, kind, fp, rule, base).verts;
    StageFlagsStep(items, fp, rule);
    LandmarkStageVertsStep(items, kind, fp, rule, base);
    forall k | 0 <= k < |Select(a)|
      ensures v[k] == LandmarkVertex(items[Select(a)[k]], kind, rule)
    {
      LandmarkStageVertAt(items, kind, fp, rule, base, k);
    }
  }

  /** The admitted selection grows by the last index exactly when that entity is admitted. */
  lemma StageFlagsStep(items: seq<Landmark>, fp: int, rule: FixRule)
    requires items != []
    ensures var n := |items| - 1;
            var a := AdmitFlags(items, fp);
            AdmitFlags(items[..n], fp) == a[..n] &&
            Select(a) == Select(a[..n]) + (if Admitted(items[n], fp) then [n] else [])
  {
    var n := |items| - 1;
    var a := AdmitFlags(items, fp);
    FlagsPrefix(items, fp, rule, n);
    assert a[..n + 1] == a;
    if a[n] {
      SelectSnocSet(a, n);
    } else {
      SelectSnocUnset(a, n);
    }
  }

  lemma LandmarkStageVertAt(items: seq<Landmark>, kind: VKind, fp: int, rule: FixRule, base: nat, k: nat)
    requires items != []
    requires StageVertsFor(items[..|items| - 1], LandmarkStage(items[..|items| - 1], kind, fp, rule, base).verts, kind, fp, rule)
    requires k < |Select(AdmitFlags(items, fp))|
    ensures k < |LandmarkStage(items, kind, fp, rule, base).verts|
    ensures LandmarkStage(items, kind, fp, rule, base).verts[k] == LandmarkVertex(items[Select(AdmitFlags(items, fp))[k]], kind, rule)
  {
    var n := |items| - 1;
    StageFlagsStep(items, fp, rule);
    LandmarkStageVertsStep(items, kind, fp, rule, base);
    SnocVertAt(items, Select(AdmitFlags(items[..n], fp)), LandmarkStage(items[..n], kind, fp, rule, base).verts,
               Select(AdmitFlags(items, fp)), LandmarkStage(items, kind, fp, rule, base).verts, kind, rule, Admitted(items[n], fp), k);
  }

  /** The vertex list and the selection grow together by the last entity, so the
      k-th vertex still stands for the k-th selected entity. */
  lemma SnocVertAt(items: seq<Landmark>, sp: seq<nat>, vp: seq<Vertex>, sel: seq<nat>, v: seq<Vertex>,
                   kind: VKind, rule: FixRule, adm: bool, k: nat)
    requires items != []
    requires |vp| == |sp|
    requires forall j :: 0 <= j < |sp| ==> sp[j] < |items| - 1 && vp[j] == LandmarkVertex(items[..|items| - 1][sp[j]], kind, rule)
    requires sel == sp + (if adm then [|items| - 1] else [])
    requires v == (if adm then vp + [LandmarkVertex(items[|items| - 1], kind, rule)] else vp)
    requires k < |sel|
    ensures k < |v| && v[k] == LandmarkVertex(items[sel[k]], kind, rule)
  {
    if k < |sp| {
      assert sel[k] == sp[k] && v[k] == vp[k];
    }
  }

  /** One more entity: the stage of a prefix one longer, in terms of the shorter one. */
  lemma LandmarkStagePrefixStep(items: seq<Landmark>, i: nat, kind: VKind, fp: int, rule: FixRule, base: nat)
    requires i < |items|
    ensures var s := LandmarkStage(items[..i], kind, fp, rule, base);
            LandmarkStage(items[..i + 1], kind, fp, rule, base) == AdmitStep(s, items[i], i, kind, fp, rule, base + |s.verts|)
  {
    assert items[..i + 1][..i] == items[..i];
  }

  lemma LandmarkStageVertsStep(items: seq<Landmark>, kind: VKind, fp: int, rule: FixRule, base: nat)
    requires items != []
    ensures var n := |items| - 1;
            var pre := LandmarkStage(items[..n], kind, fp, rule, base).verts;
            LandmarkStage(items, kind, fp, rule, base).verts ==
              if Admitted(items[n], fp) then pre + [LandmarkVertex(items[n], kind, rule)] else pre
  {
  }

  /** With global ids equal to indices, only admitted entities are in the gid->vid table. */
  lemma {:induction false} LandmarkStageKeys(items: seq<Landmark>, kind: VKind, fp: int, rule: FixRule, base: nat)
    requires EligibleAtGid(items)
    ensures forall g :: g in LandmarkStage(items, kind, fp, rule, base).gid2vid ==>
      0 <= g < |items| && Admitted(items[g], fp)
    decreases |items|
  {
    if items != [] {
      var n := |items| - 1;
      var pre := items[..n];
      assert forall j :: 0 <= j < n ==> pre[j] == items[j];
      assert EligibleAtGid(pre);
      LandmarkStageKeys(pre, kind, fp, rule, base);
      if Admitted(items[n], fp) {
        assert items[n].gid == n;
      }
    }
  }

  /** With global ids equal to indices, every admitted entity is in the gid->vid table,
      mapped to base plus its rank among the admitted entities. */
  lemma {:induction false} LandmarkStageTable(items: seq<Landmark>, kind: VKind, fp: int, rule: FixRule, base: nat)
    requires EligibleAtGid(items)
    ensures forall i :: 0 <= i < |items| && Admitted(items[i], fp) ==>
      i in LandmarkStage(items, kind, fp, rule, base).gid2vid &&
      LandmarkStage(items, kind, fp, rule, base).gid2vid[i] == base + Rank(AdmitFlags(items, fp), i)
    decreases |items|
  {
    LandmarkStageRanked(items, kind, fp, rule, base);
  }

  /** Every flagged position of f is in the table, at base plus its rank. */
  ghost predicate FlaggedRanked(t: map<int, nat>, f: seq<bool>, base: nat)
  {
    forall i :: 0 <= i < |f| && f[i] ==> i in t && t[i] == base + Rank(f, i)
  }

  lemma {:induction false} LandmarkStageRanked(items: seq<Landmark>, kind: VKind, fp: int, rule: FixRule, base: nat)
    requires EligibleAtGid(items)
    ensures FlaggedRanked(LandmarkStage(items, kind, fp, rule, base).gid2vid, AdmitFlags(items, fp), base)
    decreases |items|
  {
    if items != [] {
      var n := |items| - 1;
      var pre := items[..n];
      assert forall j :: 0 <= j < n ==> pre[j] == items[j];
      LandmarkStageRanked(pre, kind, fp, rule, base);
      LandmarkTableStep(items, kind, fp, rule, base);
    }
  }

  lemma LandmarkTableStep(items: seq<Landmark>, kind: VKind, fp: int, rule: FixRule, base: nat)
    requires EligibleAtGid(items) && items != []
    requires FlaggedRanked(LandmarkStage(items[..|items| - 1], kind, fp, rule, base).gid2vid, AdmitFlags(items[..|items| - 1], fp), base)
    ensures FlaggedRanked(LandmarkStage(items, kind, fp, rule, base).gid2vid, AdmitFlags(items, fp), base)
  {
    var n := |items| - 1;
    FlagsPrefix(items, fp, rule, n);
    StageRankAt(items, n, kind, fp, rule, base);
    LandmarkStageLast(items, kind, fp, rule, base);
    AdmitStepRanked(LandmarkStage(items[..n], kind, fp, rule, base), items[n], AdmitFlags(items, fp), n, kind, fp, rule, base);
  }

  /** The stage of a non-empty list is the stage of all but its last landmark,
      followed by the admission step for that landmark. */
  lemma LandmarkStageLast(items: seq<Landmark>, kind: VKind, fp: int, rule: FixRule, base: nat)
    requires items != []
    ensures var n := |items| - 1;
            var s := LandmarkStage(items[..n], kind, fp, rule, base);
            LandmarkStage(items, kind, fp, rule, base) == AdmitStep(s, items[n], n, kind, fp, rule, base + |s.verts|)
  {
  }

  /** The rank of position n among the admitted landmarks is the number of vertices
      the stage of the first n landmarks holds. */
  lemma StageRankAt(items: seq<Landmark>, n: nat, kind: VKind, fp: int, rule: FixRule, base: nat)
    requires n <= |items|
    ensures Rank(AdmitFlags(items, fp), n) == |LandmarkStage(items[..n], kind, fp, rule, base).verts|
  {
    FlagsPrefix(items, fp, rule, n);
    LandmarkStageVerts(items[..n], kind, fp, rule, base);
  }

  /** Admitting one more landmark keeps every flagged position at base plus its rank. */
  lemma AdmitStepRanked(s: Stage, l: Landmark, a: seq<bool>, n: nat, kind: VKind, fp: int, rule: FixRule, base: nat)
    requires |a| == n + 1 && a[n] == Admitted(l, fp) && (a[n] ==> l.gid == n) && Rank(a, n) == |s.verts|
    requires FlaggedRanked(s.gid2vid, a[..n], base)
    ensures FlaggedRanked(AdmitStep(s, l, n, kind, fp, rule, base + |s.verts|).gid2vid, a, base)
  {
    RankedTableSnocInto(s.gid2vid, AdmitStep(s, l, n, kind, fp, rule, base + |s.verts|).gid2vid, a, base, n);
  }

  /** A table holding each flagged position of f[..n] at base plus its rank, extended
      by position n when that is flagged, holds each flagged position of f likewise. */
  lemma RankedTableSnocInto(t0: map<int, nat>, t: map<int, nat>, f: seq<bool>, base: nat, n: nat)
    requires |f| == n + 1
    requires FlaggedRanked(t0, f[..n], base)
    requires t == if f[n] then t0[n := base + Rank(f, n)] else t0
    ensures FlaggedRanked(t, f, base)
  {
    forall i | 0 <= i < n && f[i]
      ensures Rank(f[..n], i) == Rank(f, i)
    {
      RankPrefix(f, n, i);
    }
  }

  /** An admitted landmark gets exactly one vertex, the one at its rank among the
      admitted entities, standing for it. */
  lemma LandmarkVertexOf(items: seq<Landmark>, kind: VKind, fp: int, rule: FixRule, base: nat, i: nat)
    requires i < |items| && Admitted(items[i], fp)
    ensures Rank(AdmitFlags(items, fp), i) < |LandmarkStage(items, kind, fp, rule, base).verts|
    ensures LandmarkStage(items, kind, fp, rule, base).verts[Rank(AdmitFlags(items, fp), i)] ==
      LandmarkVertex(items[i], kind, rule)
  {
    LandmarkStageVerts(items, kind, fp, rule, base);
    SelectAtRank(AdmitFlags(items, fp), i);
  }

  /** With global ids equal to indices: entity i has a vertex iff it is admitted, and
      then gid2vid[i] - base is the position of the vertex standing for it in the stage. */
  lemma StageVertexAt(items: seq<Landmark>, kind: VKind, fp: int, rule: FixRule, base: nat, i: nat)
    requires EligibleAtGid(items) && i < |items|
    ensures i in LandmarkStage(items, kind, fp, rule, base).gid2vid <==> Admitted(items[i], fp)
    ensures Admitted(items[i], fp) ==>
      (base <= LandmarkStage(items, kind, fp, rule, base).gid2vid[i] < base + |LandmarkStage(items, kind, fp, rule, base).verts| &&
       LandmarkStage(items, kind, fp, rule, base).verts[LandmarkStage(items, kind, fp, rule, base).gid2vid[i] - base] ==
         LandmarkVertex(items[i], kind, rule))
  {
    LandmarkStageKeys(items, kind, fp, rule, base);
    LandmarkStageTable(items, kind, fp, rule, base);
    if Admitted(items[i], fp) {
      LandmarkVertexOf(items, kind, fp, rule, base, i);
    }
  }

  /** Every entry of a stage's gid->vid table names one of the stage's own vertices,
      and that vertex stands for the key. */
  predicate TablePointsInto(m: map<int, nat>, verts: seq<Vertex>, base: nat)
  {
    forall g :: g in m ==> base <= m[g] < base + |verts| && verts[m[g] - base].entity == g
  }

  lemma LandmarkTablePointsInto(items: seq<Landmark>, kind: VKind, fp: int, rule: FixRule, base: nat)
    requires EligibleAtGid(items)
    ensures TablePointsInto(LandmarkStage(items, kind, fp, rule, base).gid2vid, LandmarkStage(items, kind, fp, rule, base).verts, base)
  {
    var st := LandmarkStage(items, kind, fp, rule, base);
    LandmarkStageKeys(items, kind, fp, rule, base);
    forall i | 0 <= i < |items| && i in st.gid2vid
      ensures base <= st.gid2vid[i] < base + |st.verts| && st.verts[st.gid2vid[i] - base] == LandmarkVertex(items[i], kind, rule)
    {
      StageVertexAt(items, kind, fp, rule, base, i);
    }
    VertexTablePointsInto(st.gid2vid, st.verts, items, kind, rule, base);
  }

  /** A table sending each registered landmark to its own vertex points into the vertices. */
  lemma VertexTablePointsInto(t: map<int, nat>, verts: seq<Vertex>, items: seq<Landmark>, kind: VKind, rule: FixRule, base: nat)
    requires EligibleAtGid(items)
    requires forall g :: g in t ==> 0 <= g < |items| && items[g].eligible
    requires forall i :: 0 <= i < |items| && i in t ==>
      base <= t[i] < base + |verts| && verts[t[i] - base] == LandmarkVertex(items[i], kind, rule)
    ensures TablePointsInto(t, verts, base)
  {
  }

  // ---------------------------------------------------------------- planes

  predicate AnyIn(keys: seq<int>, m: map<int, nat>)
  {
    exists j :: 0 <= j < |keys| && keys[j] in m
  }

  /** A plane is used when it is at least three views old and lists an admitted point or line. */
  predicate PlaneAdmitted(pl: PrimaryPlane, refId: int, ptT: map<int, nat>, lnT: map<int, nat>)
  {
    refId - pl.estViewId >= 3 && (AnyIn(pl.kptGids, ptT) || AnyIn(pl.ilnGids, lnT))
  }

  /** A plane vertex stands for the plane's index and is fixed iff the plane was
      estimated before frontPosIdx. */
  function PlaneVertex(pl: PrimaryPlane, i: int, fp: int): Vertex
  {
    Vertex(PlaneV, i, pl.estViewId < fp, PlaneEst(pl.n, pl.d))
  }

  /** The plane admission loop; tables are keyed by plane index, and `opt` lists every
      admitted plane (fixed or not). */
  function PlaneStage(pls: seq<PrimaryPlane>, refId: int, fp: int, ptT: map<int, nat>, lnT: map<int, nat>, base: nat): (r: Stage)
    ensures |r.opt| == |r.verts| <= |pls| && r.rpj == []
    ensures forall k :: 0 <= k < |r.opt| ==> r.opt[k] < |pls|
    decreases |pls|
  {
    if pls == [] then Stage([], map[], map[], [], [])
    else
      var i := |pls| - 1;
      var s := PlaneStage(pls[..i], refId, fp, ptT, lnT, base);
      PlaneStep(s, pls[i], i, refId, fp, ptT, lnT, base + |s.verts|)
  }

  /** One pass of the plane loop: a plane estimated at least three views before the
      reference view and sharing a point or a line with the graph gets vertex id `vid`. */
  function PlaneStep(s: Stage, pl: PrimaryPlane, i: nat, refId: int, fp: int, ptT: map<int, nat>, lnT: map<int, nat>, vid: nat): Stage
  {
    if !PlaneAdmitted(pl, refId, ptT, lnT) then s
    else Stage(s.verts + [PlaneVertex(pl, i, fp)], s.gid2vid[i := vid], s.vid2gid[vid := i], s.opt + [i], [])
  }

  lemma PlaneStagePrefixStep(pls: seq<PrimaryPlane>, i: nat, refId: int, fp: int, ptT: map<int, nat>, lnT: map<int, nat>, base: nat)
    requires i < |pls|
    ensures var s := PlaneStage(pls[..i], refId, fp, ptT, lnT, base);
            PlaneStage(pls[..i + 1], refId, fp, ptT, lnT, base) == PlaneStep(s, pls[i], i, refId, fp, ptT, lnT, base + |s.verts|)
  {
    assert pls[..i + 1][..i] == pls[..i];
  }

  /** The k-th new vertex is the plane vertex of the k-th admitted plane. */
  predicate PlaneVertsFor(st: Stage, pls: seq<PrimaryPlane>, fp: int)
  {
    && |st.verts| == |st.opt|
    && (forall k :: 0 <= k < |st.opt| ==> st.opt[k] < |pls|)
    && (forall k :: 0 <= k < |st.verts| ==> st.verts[k] == PlaneVertex(pls[st.opt[k]], st.opt[k], fp))
  }

  lemma {:induction false} PlaneStageVerts(pls: seq<PrimaryPlane>, refId: int, fp: int, ptT: map<int, nat>, lnT: map<int, nat>, base: nat)
    ensures PlaneVertsFor(PlaneStage(pls, refId, fp, ptT, lnT, base), pls, fp)
    decreases |pls|
  {
    if pls != [] {
      var i := |pls| - 1;
      PlaneStageVerts(pls[..i], refId, fp, ptT, lnT, base);
      var s := PlaneStage(pls[..i], refId, fp, ptT, lnT, base);
      var r := PlaneStage(pls, refId, fp, ptT, lnT, base);
      if PlaneAdmitted(pls[i], refId, ptT, lnT) {
        assert r.verts == s.verts + [PlaneVertex(pls[i], i, fp)] && r.opt == s.opt + [i];
      }
      forall k | 0 <= k < |r.verts|
        ensures r.verts[k] == PlaneVertex(pls[r.opt[k]], r.opt[k], fp)
      {
        if k < |s.verts| {
          assert r.verts[k] == s.verts[k] && r.opt[k] == s.opt[k];
          assert pls[..i][s.opt[k]] == pls[s.opt[k]];
        }
      }
    }
  }

  /** vid2gid holds exactly the new plane vertex ids, each naming its plane. */
  lemma {:induction false} PlaneStageVids(pls: seq<PrimaryPlane>, refId: int, fp: int, ptT: map<int, nat>, lnT: map<int, nat>, base: nat)
    ensures VidTable(PlaneStage(pls, refId, fp, ptT, lnT, base), base, PlaneStage(pls, refId, fp, ptT, lnT, base).opt)
    decreases |pls|
  {
    if pls != [] {
      var i := |pls| - 1;
      PlaneStageVids(pls[..i], refId, fp, ptT, lnT, base);
      var s := PlaneStage(pls[..i], refId, fp, ptT, lnT, base);
      var r := PlaneStage(pls, refId, fp, ptT, lnT, base);
      if PlaneAdmitted(pls[i], refId, ptT, lnT) {
        assert r.vid2gid == s.vid2gid[base + |s.verts| := i];
        assert r.opt == s.opt + [i];
        assert |r.verts| == |s.verts| + 1;
        forall k | 0 <= k < |r.verts|
          ensures r.vid2gid[base + k] == r.opt[k]
        {
          if k < |s.verts| {
            assert r.opt[k] == s.opt[k];
            assert s.vid2gid[base + k] == s.opt[k];
          }
        }
      }
    }
  }

  function PlaneFlags(pls: seq<PrimaryPlane>, refId: int, ptT: map<int, nat>, lnT: map<int, nat>): (f: seq<bool>)
    ensures |f| == |pls| && forall i :: 0 <= i < |pls| ==> f[i] == PlaneAdmitted(pls[i], refId, ptT, lnT)
  {
    seq(|pls|, i requires 0 <= i < |pls| => PlaneAdmitted(pls[i], refId, ptT, lnT))
  }

  /** Admitted planes are listed in index order. */
  lemma {:induction false} PlaneStageLists(pls: seq<PrimaryPlane>, refId: int, fp: int, ptT: map<int, nat>, lnT: map<int, nat>, base: nat)
    ensures PlaneStage(pls, refId, fp, ptT, lnT, base).opt == Select(PlaneFlags(pls, refId, ptT, lnT))
    decreases |pls|
  {
    if pls != [] {
      var n := |pls| - 1;
      var pre := pls[..n];
      PlaneStageLists(pre, refId, fp, ptT, lnT, base);
      var f := PlaneFlags(pls, refId, ptT, lnT);
      assert f[..n] == PlaneFlags(pre, refId, ptT, lnT);
      SelectSnoc(f, n);
      assert f[..n + 1] == f;
    }
  }

  /** The table maps exactly the flagged positions of f, each to base plus its rank. */
  ghost predicate RankedTable(t: map<int, nat>, f: seq<bool>, base: nat)
  {
    && (forall i :: i in t <==> 0 <= i < |f| && f[i])
    && (forall i :: i in t ==> 0 <= i <= |f| && t[i] == base + Rank(f, i))
  }

  /** The plane table maps exactly the admitted plane indices, each to base plus its
      rank among the admitted planes. */
  lemma {:induction false} PlaneStageTable(pls: seq<PrimaryPlane>, refId: int, fp: int, ptT: map<int, nat>, lnT: map<int, nat>, base: nat)
    ensures RankedTable(PlaneStage(pls, refId, fp, ptT, lnT, base).gid2vid, PlaneFlags(pls, refId, ptT, lnT), base)
    decreases |pls|
  {
    if pls != [] {
      var n := |pls| - 1;
      var pre := pls[..n];
      PlaneStageTable(pre, refId, fp, ptT, lnT, base);
      PlaneStageLists(pre, refId, fp, ptT, lnT, base);
      PlaneFlagsPrefix(pls, refId, ptT, lnT);
      RankedTableSnoc(PlaneStage(pre, refId, fp, ptT, lnT, base).gid2vid, PlaneStage(pls, refId, fp, ptT, lnT, base).gid2vid,
                      PlaneFlags(pls, refId, ptT, lnT), base, n);
    }
  }

  lemma PlaneFlagsPrefix(pls: seq<PrimaryPlane>, refId: int, ptT: map<int, nat>, lnT: map<int, nat>)
    requires pls != []
    ensures PlaneFlags(pls, refId, ptT, lnT)[..|pls| - 1] == PlaneFlags(pls[..|pls| - 1], refId, ptT, lnT)
  {
  }

  /** A ranked table over f[..n], extended by position n when that is flagged, is a
      ranked table over f. */
  lemma RankedTableSnoc(t0: map<int, nat>, t: map<int, nat>, f: seq<bool>, base: nat, n: nat)
    requires |f| == n + 1
    requires RankedTable(t0, f[..n], base)
    requires t == if f[n] then t0[n := base + Rank(f, n)] else t0
    ensures RankedTable(t, f, base)
  {
    forall i | i in t0
      ensures Rank(f[..n], i) == Rank(f, i)
    {
      RankPrefix(f, n, i);
    }
  }

  /** A ranked table whose stage lists the flagged positions in order, each vertex
      standing for its position, points into the stage, and each vertex's entity
      is mapped back to that vertex. */
  lemma RankedStage(st: Stage, f: seq<bool>, base: nat)
    requires RankedTable(st.gid2vid, f, base) && st.opt == Select(f) && |st.verts| == |st.opt|
    requires forall k :: 0 <= k < |st.verts| ==> st.verts[k].entity == st.opt[k]
    ensures TablePointsInto(st.gid2vid, st.verts, base)
    ensures forall k :: 0 <= k < |st.verts| ==> st.verts[k].entity in st.gid2vid && st.gid2vid[st.verts[k].entity] == base + k
  {
    forall i | i in st.gid2vid
      ensures base <= st.gid2vid[i] < base + |st.verts| && st.verts[st.gid2vid[i] - base].entity == i
    {
      SelectAtRank(f, i);
    }
    forall k | 0 <= k < |st.verts|
      ensures st.verts[k].entity in st.gid2vid && st.gid2vid[st.verts[k].entity] == base + k
    {
      RankOfSelected(f, k);
    }
  }

  /** The plane table points into the plane stage: plane i's vertex is at gid2vid[i] and stands for i. */
  lemma PlaneTablePointsInto(pls: seq<PrimaryPlane>, refId: int, fp: int, ptT: map<int, nat>, lnT: map<int, nat>, base: nat)
    ensures TablePointsInto(PlaneStage(pls, refId, fp, ptT, lnT, base).gid2vid, PlaneStage(pls, refId, fp, ptT, lnT, base).verts, base)
  {
    PlaneStageFacts(pls, refId, fp, ptT, lnT, base);
    RankedStage(PlaneStage(pls, refId, fp, ptT, lnT, base), PlaneFlags(pls, refId, ptT, lnT), base);
  }

  /** The facts about a plane stage the table lemmas need, in one place. */
  lemma PlaneStageFacts(pls: seq<PrimaryPlane>, refId: int, fp: int, ptT: map<int, nat>, lnT: map<int, nat>, base: nat)
    ensures var st := PlaneStage(pls, refId, fp, ptT, lnT, base);
            && RankedTable(st.gid2vid, PlaneFlags(pls, refId, ptT, lnT), base)
            && st.opt == Select(PlaneFlags(pls, refId, ptT, lnT)) && |st.verts| == |st.opt|
            && (forall k :: 0 <= k < |st.verts| ==> st.verts[k].entity == st.opt[k] && st.verts[k].kind == PlaneV)
  {
    PlaneStageTable(pls, refId, fp, ptT, lnT, base);
    PlaneStageLists(pls, refId, fp, ptT, lnT, base);
    PlaneStageVerts(pls, refId, fp, ptT, lnT, base);
  }
}
