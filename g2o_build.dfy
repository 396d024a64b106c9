/** The loops of the g2o back end that build the optimisation problem, each
    proved to compute the specification function of G2oGraph or G2oEdges it
    stands for, and `BuildSpec`, the whole problem a call sets up. */
module G2oBuild {
  import opened SeqUtil
  import opened Entities
  import opened Windows
  import opened G2oGraph
  import opened G2oEdges

  // ---------------------------------------------------------------- cameras

  /** One camera vertex per view of the window, numbered from 0, filling both id tables. */
  method AddCameraVertices(views: seq<View>, w: Window) returns (cams: seq<Vertex>, fid2vid: map<int, nat>, vid2fid: map<nat, int>)
    requires CamRangeOk(views, w)
    ensures cams == CamVertices(views, w)
    ensures fid2vid == CamFid2Vid(w.camLo, CamCount(w)) && vid2fid == CamVid2Fid(w.camLo, CamCount(w))
  {
    cams, fid2vid, vid2fid := [], map[], map[];
    var vertexId: nat := 0;
    var i := w.camLo;
    while i < w.camHi
      invariant w.camLo <= i && vertexId == i - w.camLo
      invariant i < w.camHi ==> i < |views|
      invariant vertexId <= CamCount(w)
      invariant |cams| == vertexId
      invariant forall k :: 0 <= k < vertexId ==> cams[k] == CamVertex(views[w.camLo + k], w.camLo + k, w)
      invariant fid2vid == CamFid2Vid(w.camLo, vertexId) && vid2fid == CamVid2Fid(w.camLo, vertexId)
      decreases w.camHi - i
    {
      cams := cams + [CamVertex(views[i], i, w)];
      vid2fid := vid2fid[vertexId := i];
      fid2vid := fid2vid[i := vertexId];
      vertexId := vertexId + 1;
      i := i + 1;
    }
    assert vertexId == CamCount(w);
  }

  /** camfid2vid and camvid2fid are mutually inverse over the window's views. */
  lemma CamTablesInverse(lo: int, count: nat)
    ensures forall i :: i in CamFid2Vid(lo, count) ==>
      (CamFid2Vid(lo, count)[i] in CamVid2Fid(lo, count) && CamVid2Fid(lo, count)[CamFid2Vid(lo, count)[i]] == i)
    ensures forall k :: k in CamVid2Fid(lo, count) ==>
      (CamVid2Fid(lo, count)[k] in CamFid2Vid(lo, count) && CamFid2Vid(lo, count)[CamVid2Fid(lo, count)[k]] == k)
  {
  }

  /** Walk the newest `span` entries of the distance log from the newest down, keeping
      those whose two views have camera vertices. */
  method SelectDistEdges(cs: seq<CamDist>, span: int, fid2vid: map<int, nat>) returns (edges: seq<Edge>)
    ensures edges == DistEdges(cs, DistLo(cs, span), |cs|, fid2vid)
  {
    edges := [];
    var i := |cs| - 1;
    while i >= 0 && i >= |cs| - span
      invariant -1 <= i < |cs| && (i + 1 >= DistLo(cs, span) || i + 1 == |cs|)
      invariant edges == DistEdges(cs, i + 1, |cs|, fid2vid)
      decreases i
    {
      if DistUsable(cs[i], fid2vid) {
        edges := edges + [DistEdge(cs[i], fid2vid)];
      }
      i := i - 1;
    }
  }

  /** Once some distance edge exists, every camera vertex but the first is set free. */
  method UnfixCameras(cams: seq<Vertex>, hasDist: bool) returns (r: seq<Vertex>)
    ensures r == Unfix(cams, hasDist)
  {
    r := cams;
    if hasDist {
      var i := 0;
      while i < |r|
        invariant 0 <= i <= |r| && |r| == |cams|
        invariant forall k :: 0 <= k < |r| ==> r[k] == (if 0 < k < i then cams[k].(fixed := false) else cams[k])
      {
        if i > 0 {
          r := r[i := r[i].(fixed := false)];
        }
        i := i + 1;
      }
    }
  }

  // ------------------------------------------------ points, VPs and lines

  /** The observation loop with its `break`: is some observation at view `v` or later? */
  method SeenFromSearch(obs: seq<Obs>, v: int) returns (found: bool)
    ensures found == SeenFrom(obs, v)
  {
    found := false;
    var j := 0;
    while j < |obs| && !found
      invariant 0 <= j <= |obs|
      invariant found ==> SeenFrom(obs, v)
      invariant !found ==> forall jj :: 0 <= jj < j ==> obs[jj].view < v
    {
      if obs[j].view >= v {
        found := true;
      }
      j := j + 1;
    }
  }

  /** The admission loop of one landmark kind, vertex ids running on from `base`. */
  method AddLandmarkVertices(items: seq<Landmark>, kind: VKind, fp: int, rule: FixRule, base: nat) returns (st: Stage, next: nat)
    ensures st == LandmarkStage(items, kind, fp, rule, base)
    ensures next == base + |st.verts|
  {
    st := Stage([], map[], map[], [], []);
    next := base;
    var i := 0;
    while i < |items|
      invariant 0 <= i <= |items|
      invariant st == LandmarkStage(items[..i], kind, fp, rule, base)
      invariant next == base + |st.verts|
    {
      LandmarkStagePrefixStep(items, i, kind, fp, rule, base);
      st, next := AdmitLandmark(st, next, items[i], i, kind, fp, rule);
      i := i + 1;
    }
    assert items[..|items|] == items;
  }

  /** One pass of the admission loop: an eligible entity seen at or after fp gets the
      next vertex id and joins the optimised or the reproject-only list. */
  method AdmitLandmark(s: Stage, next: nat, l: Landmark, i: nat, kind: VKind, fp: int, rule: FixRule)
    returns (st: Stage, next': nat)
    ensures st == AdmitStep(s, l, i, kind, fp, rule, next)
    ensures next' == if Admitted(l, fp) then next + 1 else next
  {
    st, next' := s, next;
    if l.eligible {
      var seen := SeenFromSearch(l.obs, fp);
      if seen {
        var pinned := Pinned(l, rule);
        st := Stage(s.verts + [LandmarkVertex(l, kind, rule)],
                    s.gid2vid[l.gid := next], s.vid2gid[next := l.gid],
                    if pinned then s.opt else s.opt + [i],
                    if pinned then s.rpj + [i] else s.rpj);
        next' := next + 1;
      }
    }
  }

  // ---------------------------------------------------------------- planes

  /** Does some listed id have an entry in the table? */
  method AnyInSearch(keys: seq<int>, m: map<int, nat>) returns (found: bool)
    ensures found == AnyIn(keys, m)
  {
    found := false;
    var j := 0;
    while j < |keys| && !found
      invariant 0 <= j <= |keys|
      invariant found ==> AnyIn(keys, m)
      invariant !found ==> forall jj :: 0 <= jj < j ==> keys[jj] !in m
    {
      if keys[j] in m {
        found := true;
      }
      j := j + 1;
    }
  }

  method AddPlaneVertices(pls: seq<PrimaryPlane>, refId: int, fp: int, ptT: map<int, nat>, lnT: map<int, nat>, base: nat)
    returns (st: Stage, next: nat)
    ensures st == PlaneStage(pls, refId, fp, ptT, lnT, base)
    ensures next == base + |st.verts|
  {
    st := Stage([], map[], map[], [], []);
    next := base;
    var i := 0;
    while i < |pls|
      invariant 0 <= i <= |pls|
      invariant st == PlaneStage(pls[..i], refId, fp, ptT, lnT, base)
      invariant next == base + |st.verts|
    {
      PlaneStagePrefixStep(pls, i, refId, fp, ptT, lnT, base);
      st, next := AdmitPlane(st, next, pls[i], i, refId, fp, ptT, lnT);
      i := i + 1;
    }
    assert pls[..|pls|] == pls;
  }

  /** One pass of the plane loop: the two searches over the plane's points and lines. */
  method AdmitPlane(s: Stage, next: nat, pl: PrimaryPlane, i: nat, refId: int, fp: int, ptT: map<int, nat>, lnT: map<int, nat>)
    returns (st: Stage, next': nat)
    ensures st == PlaneStep(s, pl, i, refId, fp, ptT, lnT, next)
    ensures next' == if PlaneAdmitted(pl, refId, ptT, lnT) then next + 1 else next
  {
    st, next' := s, next;
    if refId - pl.estViewId >= 3 {
      var usePlane := AnyInSearch(pl.kptGids, ptT);
      var useLines := AnyInSearch(pl.ilnGids, lnT);
      usePlane := usePlane || useLines;
      if usePlane {
        st := Stage(s.verts + [PlaneVertex(pl, i, fp)], s.gid2vid[i := next], s.vid2gid[next := i], s.opt + [i], []);
        next' := next + 1;
      }
    }
  }

  // ---------------------------------------------------------------- edges

  lemma ListedFitPrefix(kind: ObsKind, idxs: seq<nat>, items: seq<Landmark>, views: seq<View>, n: nat)
    requires n <= |idxs| && ListedFit(kind, idxs, items, views)
    ensures ListedFit(kind, idxs[..n], items, views)
  {
    assert forall k :: 0 <= k < n ==> idxs[..n][k] == idxs[k];
  }

  lemma AllFitPrefix(kind: ObsKind, views: seq<View>, obs: seq<Obs>, n: nat)
    requires n <= |obs| && AllFit(kind, views, obs)
    ensures AllFit(kind, views, obs[..n])
  {
    assert forall j :: 0 <= j < n ==> obs[..n][j] == obs[j];
  }

  /** The inner observation loop of one landmark: skip unmatchable views and views before `thr`. */
  method ObsEdgesOf(kind: ObsKind, idx: int, vp: int, obs: seq<Obs>, views: seq<View>, thr: int, s: Settings)
    returns (reqs: seq<Request>)
    requires AllFit(kind, views, obs)
    ensures reqs == ObsRequests(kind, idx, vp, obs, views, thr, s)
  {
    reqs := [];
    var j := 0;
    while j < |obs|
      invariant 0 <= j <= |obs|
      invariant AllFit(kind, views, obs[..j])
      invariant reqs == ObsRequests(kind, idx, vp, obs[..j], views, thr, s)
    {
      AllFitPrefix(kind, views, obs, j + 1);
      assert obs[..j + 1][..j] == obs[..j];
      var o := obs[j];
      if views[o.view].matchable && o.view >= thr {
        reqs := reqs + [ObsRequest(kind, idx, vp, o, views, s)];
      }
      j := j + 1;
    }
    assert obs[..j] == obs;
  }

  /** The nested observation loops of one landmark list (kptIdx2Opt, vpIdx2Opt, ...). */
  method EnumerateObsEdges(kind: ObsKind, idxs: seq<nat>, items: seq<Landmark>, views: seq<View>, thr: int, s: Settings)
    returns (reqs: seq<Request>)
    requires ListedFit(kind, idxs, items, views)
    ensures reqs == LandmarkRequests(kind, idxs, items, views, thr, s)
  {
    reqs := [];
    var i := 0;
    while i < |idxs|
      invariant 0 <= i <= |idxs|
      invariant ListedFit(kind, idxs[..i], items, views)
      invariant reqs == LandmarkRequests(kind, idxs[..i], items, views, thr, s)
    {
      ListedFitPrefix(kind, idxs, items, views, i + 1);
      var l := items[idxs[i]];
      var mine := ObsEdgesOf(kind, idxs[i], l.vp, l.obs, views, thr, s);
      reqs := reqs + mine;
      assert idxs[..i + 1][..i] == idxs[..i];
      i := i + 1;
    }
    assert idxs[..i] == idxs;
  }

  lemma PlaneIdxPrefix(pls: seq<PrimaryPlane>, plIdxs: seq<nat>, n: nat)
    requires n <= |plIdxs| && forall k :: 0 <= k < |plIdxs| ==> plIdxs[k] < |pls|
    ensures forall k :: 0 <= k < n ==> plIdxs[..n][k] < |pls|
  {
  }

  /** The point-plane loop of one plane: member points without a vertex are skipped. */
  method PointPlaneEdgesOf(gids: seq<int>, ptT: map<int, nat>, plGid: int, s: Settings) returns (pp: seq<Request>)
    ensures pp == MemberPointRequests(gids, ptT, plGid, s)
  {
    pp := [];
    var j := 0;
    while j < |gids|
      invariant 0 <= j <= |gids|
      invariant pp == MemberPointRequests(gids[..j], ptT, plGid, s)
    {
      assert gids[..j + 1][..j] == gids[..j];
      if gids[j] in ptT {
        pp := pp + [PointPlaneRequest(gids[j], plGid, s)];
      }
      j := j + 1;
    }
    assert gids[..j] == gids;
  }

  /** The line-plane loop of one plane: member lines without a vertex are skipped. */
  method LinePlaneEdgesOf(gids: seq<int>, lnT: map<int, nat>, ils: seq<IdealLine3d>, plGid: int, s: Settings)
    returns (lp: seq<Request>)
    requires LineTableInRange(lnT, ils)
    ensures lp == MemberLineRequests(gids, lnT, ils, plGid, s)
  {
    lp := [];
    var j := 0;
    while j < |gids|
      invariant 0 <= j <= |gids|
      invariant lp == MemberLineRequests(gids[..j], lnT, ils, plGid, s)
    {
      assert gids[..j + 1][..j] == gids[..j];
      var lnGid := gids[j];
      if lnGid in lnT {
        lp := lp + [LinePlaneRequest(lnGid, ils[lnGid].vpGid, plGid, s)];
      }
      j := j + 1;
    }
    assert gids[..j] == gids;
  }

  /** The plane loop: for each admitted plane, its point-plane and then its line-plane edges. */
  method EnumeratePlaneEdges(pls: seq<PrimaryPlane>, plIdxs: seq<nat>, ptT: map<int, nat>, lnT: map<int, nat>,
                             ils: seq<IdealLine3d>, s: Settings)
    returns (pp: seq<Request>, lp: seq<Request>)
    requires forall k :: 0 <= k < |plIdxs| ==> plIdxs[k] < |pls|
    requires LineTableInRange(lnT, ils)
    ensures pp == PlanePointRequests(pls, plIdxs, ptT, s)
    ensures lp == PlaneLineRequests(pls, plIdxs, lnT, ils, s)
  {
    pp, lp := [], [];
    var i := 0;
    while i < |plIdxs|
      invariant 0 <= i <= |plIdxs|
      invariant pp == PlanePointRequests(pls, plIdxs[..i], ptT, s)
      invariant lp == PlaneLineRequests(pls, plIdxs[..i], lnT, ils, s)
    {
      var plGid := plIdxs[i];
      var onPlanePts := PointPlaneEdgesOf(pls[plGid].kptGids, ptT, plGid, s);
      var onPlaneLns := LinePlaneEdgesOf(pls[plGid].ilnGids, lnT, ils, plGid, s);
      pp := pp + onPlanePts;
      lp := lp + onPlaneLns;
      PlaneIdxPrefix(pls, plIdxs, i + 1);
      assert plIdxs[..i + 1][..i] == plIdxs[..i];
      i := i + 1;
    }
    assert plIdxs[..i] == plIdxs;
  }

  // ---------------------------------------------------------------- look-up

  /** Look up one edge's endpoints, stopping at the first one without a vertex. */
  method ResolveRequest(r: Request, t: Tables) returns (res: Result<Edge>)
    ensures res == Resolve(r, t)
  {
    var vids: seq<nat> := [];
    var j := 0;
    while j < |r.ends|
      invariant 0 <= j <= |r.ends| && |vids| == j
      invariant forall jj :: 0 <= jj < j ==> r.ends[jj].id in TableOf(t, r.ends[jj].table)
      invariant forall jj :: 0 <= jj < j ==> vids[jj] == TableOf(t, r.ends[jj].table)[r.ends[jj].id]
    {
      var m := TableOf(t, r.ends[j].table);
      if r.ends[j].id !in m {
        return Failure(MissingVertex);
      }
      vids := vids + [m[r.ends[j].id]];
      j := j + 1;
    }
    if KernelMissing(r) {
      return Failure(NullKernel);
    }
    assert vids == Vids(r, t);
    return Success(Bind(r, vids));
  }

  /** A failure of a prefix is the failure of the whole list. */
  lemma {:induction false} ResolveAllFailureSticks(reqs: seq<Request>, n: nat, t: Tables)
    requires n <= |reqs| && ResolveAll(reqs[..n], t).Failure?
    ensures ResolveAll(reqs, t) == ResolveAll(reqs[..n], t)
    decreases |reqs| - n
  {
    if n < |reqs| {
      var m := |reqs| - 1;
      assert reqs[..m][..n] == reqs[..n];
      ResolveAllFailureSticks(reqs[..m], n, t);
    } else {
      assert reqs[..n] == reqs;
    }
  }

  /** Add the edges of one list in order; the first one that cannot be added ends the run. */
  method ResolveEdges(reqs: seq<Request>, t: Tables) returns (res: Result<seq<Edge>>)
    ensures res == ResolveAll(reqs, t)
  {
    var edges: seq<Edge> := [];
    var i := 0;
    while i < |reqs|
      invariant 0 <= i <= |reqs|
      invariant ResolveAll(reqs[..i], t) == Success(edges)
    {
      var e := ResolveRequest(reqs[i], t);
      assert reqs[..i + 1][..i] == reqs[..i];
      if e.Failure? {
        ResolveAllFailureSticks(reqs, i + 1, t);
        return Failure(e.error);
      }
      edges := edges + [e.value];
      i := i + 1;
    }
    assert reqs[..i] == reqs;
    return Success(edges);
  }
}
