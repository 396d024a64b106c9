/** Edge enumeration of the g2o back end: which observations and plane
    memberships produce which typed edge, and how an edge's endpoints are
    looked up in the id tables filled while adding vertices. */
module G2oEdges {
  import opened SeqUtil
  import opened Entities
  import opened G2oGraph

  datatype TableId = CamT | PtT | VpT | LnT | PlT

  /** An endpoint before look-up: a key into one of the id tables. */
  datatype Key = Key(table: TableId, id: int)

  /** An edge before its endpoints are looked up. */
  datatype Request = Request(kind: EKind, ends: seq<Key>, meas: Meas, info: Info, kernel: Kernel)

  /** `camfid2vid`, `ptgid2vid`, `vpgid2vid`, `lngid2vid`, `plgid2vid`. */
  datatype Tables = Tables(cam: map<int, nat>, pt: map<int, nat>, vp: map<int, nat>, ln: map<int, nat>, pl: map<int, nat>)

  function TableOf(t: Tables, id: TableId): map<int, nat>
  {
    match id
    case CamT => t.cam
    case PtT => t.pt
    case VpT => t.vp
    case LnT => t.ln
    case PlT => t.pl
  }

  datatype BuildError = MissingVertex | NullKernel
  datatype Result<T> = Success(value: T) | Failure(error: BuildError)

  // ------------------------------------------------ vanishing-point information

  /** A 2x2 matrix, row-major. */
  datatype Mat2 = Mat2(m00: real, m01: real, m10: real, m11: real)

  const CovFloor: real := 0.001

  function RMax(a: real, b: real): real { if a >= b then a else b }

  /** The covariance used for a vanishing-point edge: diagonal entries of the detection's
      angular covariance floored at 1e-3, off-diagonal entries multiplied by zero. */
  function VpCov(d: VpDetection): (c: Mat2)
    ensures c == Mat2(RMax(d.c00, CovFloor), 0.0, 0.0, RMax(d.c11, CovFloor))
    ensures c.m00 >= CovFloor && c.m11 >= CovFloor
  {
    Mat2(RMax(d.c00, CovFloor), d.c01 * 0.0, d.c10 * 0.0, RMax(d.c11, CovFloor))
  }

  function Det(m: Mat2): real { m.m00 * m.m11 - m.m01 * m.m10 }

  /** The general 2x2 inverse by the adjugate. */
  function Inverse(m: Mat2): Mat2
    requires Det(m) != 0.0
  {
    var d := Det(m);
    Mat2(m.m11 / d, -m.m01 / d, -m.m10 / d, m.m00 / d)
  }

  function ScaleMat(w: real, m: Mat2): Mat2 { Mat2(w * m.m00, w * m.m01, w * m.m10, w * m.m11) }

  lemma PositiveDet(a: real, b: real)
    requires a > 0.0 && b > 0.0
    ensures Det(Mat2(a, 0.0, 0.0, b)) > 0.0
  {
    assert a * b > 0.0;
  }

  /** A diagonal matrix with a positive diagonal is invertible, and its inverse is
      diagonal with the reciprocal entries. */
  lemma DiagonalInverse(a: real, b: real)
    requires a > 0.0 && b > 0.0
    ensures Det(Mat2(a, 0.0, 0.0, b)) != 0.0
    ensures Inverse(Mat2(a, 0.0, 0.0, b)) == Mat2(1.0 / a, 0.0, 0.0, 1.0 / b)
  {
    PositiveDet(a, b);
    var d := a * b;
    assert Det(Mat2(a, 0.0, 0.0, b)) == d;
    assert b / d == 1.0 / a by { assert d * (1.0 / a) == b; }
    assert a / d == 1.0 / b by { assert d * (1.0 / b) == a; }
  }

  /** The information of a vanishing-point edge: weight times the inverse covariance
      (its off-diagonal entries are zero, so only the diagonal is kept). */
  function VpInfo(d: VpDetection, weight: real): Info
  {
    var c := VpCov(d);
    DiagonalInverse(c.m00, c.m11);
    var m := ScaleMat(weight, Inverse(c));
    Diag2(m.m00, m.m11)
  }

  /** The information is diag(w / max(c00, 1e-3), w / max(c11, 1e-3)); each entry lies
      in [0, 1000 w] for a non-negative weight. */
  lemma VpInfoDiagonal(d: VpDetection, weight: real)
    ensures VpInfo(d, weight) == Diag2(weight / RMax(d.c00, CovFloor), weight / RMax(d.c11, CovFloor))
    ensures weight >= 0.0 ==>
      (0.0 <= VpInfo(d, weight).a <= 1000.0 * weight && 0.0 <= VpInfo(d, weight).b <= 1000.0 * weight)
  {
    var c := VpCov(d);
    var a, b := c.m00, c.m11;
    DiagonalInverse(a, b);
    ScaledReciprocal(weight, a);
    ScaledReciprocal(weight, b);
    if weight >= 0.0 {
      DivBound(weight, a);
      DivBound(weight, b);
    }
  }

  lemma ScaledReciprocal(w: real, a: real)
    requires a > 0.0
    ensures w * (1.0 / a) == w / a
  {
  }

  lemma DivBound(w: real, a: real)
    requires w >= 0.0 && a >= CovFloor
    ensures 0.0 <= w / a <= 1000.0 * w
  {
    assert w / a * a == w;
    assert 1000.0 * w * a >= 1000.0 * w * CovFloor;
  }

  // ------------------------------------------------ observation edges

  datatype ObsKind = PointObs | VpObs | LineObs

  /** The observation names an existing view and an existing feature of its kind. */
  predicate ObsFits(kind: ObsKind, views: seq<View>, o: Obs)
  {
    0 <= o.view < |views| && 0 <= o.local &&
    match kind
    case PointObs => o.local < |views[o.view].featurePoints|
    case VpObs => o.local < |views[o.view].vanishPoints|
    case LineObs => o.local < |views[o.view].idealLines|
  }

  predicate AllFit(kind: ObsKind, views: seq<View>, obs: seq<Obs>)
  {
    forall j :: 0 <= j < |obs| ==> ObsFits(kind, views, obs[j])
  }

  /** An observation yields an edge when its view is matchable and at or after `thr`
      (frontFrmIdx for points and lines, frontVptIdx for vanishing points). */
  predicate Qualifies(views: seq<View>, o: Obs, thr: int)
  {
    CamQualifies(views, o.view, thr)
  }

  predicate CamQualifies(views: seq<View>, v: int, thr: int)
  {
    0 <= v < |views| && views[v].matchable && v >= thr
  }

  function LandmarkTable(kind: ObsKind): TableId
  {
    match kind
    case PointObs => PtT
    case VpObs => VpT
    case LineObs => LnT
  }

  /** The edge of one observation of landmark `idx` (its index, which keys the table);
      `vp` is a line's vanishing point. */
  function ObsRequest(kind: ObsKind, idx: int, vp: int, o: Obs, views: seq<View>, s: Settings): (r: Request)
    requires ObsFits(kind, views, o)
    ensures |r.ends| >= 2 && r.ends[0] == Key(LandmarkTable(kind), idx) && r.ends[|r.ends| - 1] == Key(CamT, o.view)
  {
    match kind
    case PointObs =>
      Request(PointCamE, [Key(PtT, idx), Key(CamT, o.view)],
              PixelM(views[o.view].featurePoints[o.local]), Scaled(1.0), KernelIf(s.useKernel, s.deltaPoint))
    case VpObs =>
      var det := views[o.view].vanishPoints[o.local];
      Request(VpCamE, [Key(VpT, idx), Key(CamT, o.view)],
              VpM(det), VpInfo(det, s.weightVPoint), KernelIf(s.useKernel, s.deltaVPoint))
    case LineObs =>
      Request(LineVpCamE, [Key(LnT, idx), Key(VpT, vp), Key(CamT, o.view)],
              SegM(views[o.view].idealLines[o.local].lsEndpoints), Scaled(s.weightLine), KernelIf(s.useKernel, s.deltaLine))
  }

  /** The edges of one landmark's observation list, in observation order. */
  function ObsRequests(kind: ObsKind, idx: int, vp: int, obs: seq<Obs>, views: seq<View>, thr: int, s: Settings): (r: seq<Request>)
    requires AllFit(kind, views, obs)
    ensures |r| <= |obs|
    ensures forall q :: q in r ==>
      (|q.ends| >= 2 && q.ends[0] == Key(LandmarkTable(kind), idx) &&
       q.ends[|q.ends| - 1].table == CamT && CamQualifies(views, q.ends[|q.ends| - 1].id, thr))
    decreases |obs|
  {
    if obs == [] then []
    else
      var n := |obs| - 1;
      ObsRequests(kind, idx, vp, obs[..n], views, thr, s) +
        (if Qualifies(views, obs[n], thr) then [ObsRequest(kind, idx, vp, obs[n], views, s)] else [])
  }

  function QualFlags(views: seq<View>, obs: seq<Obs>, thr: int): (f: seq<bool>)
    ensures |f| == |obs| && forall j :: 0 <= j < |obs| ==> f[j] == Qualifies(views, obs[j], thr)
  {
    seq(|obs|, j requires 0 <= j < |obs| => Qualifies(views, obs[j], thr))
  }

  /** The requests of the qualifying observations at the positions `sel`, in order. */
  function RequestsAt(kind: ObsKind, idx: int, vp: int, obs: seq<Obs>, sel: seq<nat>, views: seq<View>, s: Settings): (r: seq<Request>)
    requires AllFit(kind, views, obs)
    requires forall k :: 0 <= k < |sel| ==> sel[k] < |obs|
    ensures |r| == |sel|
  {
    seq(|sel|, k requires 0 <= k < |sel| => ObsRequest(kind, idx, vp, obs[sel[k]], views, s))
  }

  /** Each qualifying observation yields exactly one edge, in observation order, and
      no other observation yields one. */
  lemma {:induction false} ObsRequestsExact(kind: ObsKind, idx: int, vp: int, obs: seq<Obs>, views: seq<View>, thr: int, s: Settings)
    requires AllFit(kind, views, obs)
    ensures ObsRequests(kind, idx, vp, obs, views, thr, s) ==
      RequestsAt(kind, idx, vp, obs, Select(QualFlags(views, obs, thr)), views, s)
    decreases |obs|
  {
    if obs != [] {
      var n := |obs| - 1;
      var pre := obs[..n];
      assert AllFit(kind, views, pre) by {
        assert forall j :: 0 <= j < n ==> pre[j] == obs[j];
      }
      ObsRequestsExact(kind, idx, vp, pre, views, thr, s);
      ObsRequestsStep(kind, idx, vp, obs, views, thr, s);
    }
  }

  lemma ObsRequestsStep(kind: ObsKind, idx: int, vp: int, obs: seq<Obs>, views: seq<View>, thr: int, s: Settings)
    requires obs != [] && AllFit(kind, views, obs) && AllFit(kind, views, obs[..|obs| - 1])
    requires ObsRequests(kind, idx, vp, obs[..|obs| - 1], views, thr, s) ==
      RequestsAt(kind, idx, vp, obs[..|obs| - 1], Select(QualFlags(views, obs[..|obs| - 1], thr)), views, s)
    ensures ObsRequests(kind, idx, vp, obs, views, thr, s) ==
      RequestsAt(kind, idx, vp, obs, Select(QualFlags(views, obs, thr)), views, s)
  {
    var n := |obs| - 1;
    var pre := obs[..n];
    var q := QualFlags(views, obs, thr);
    assert q[..n] == QualFlags(views, pre, thr);
    SelectSnoc(q, n);
    assert q[..n + 1] == q;
    var selPre := Select(q[..n]);
    RequestsAtPrefix(kind, idx, vp, obs, n, selPre, views, s);
    var tail := if Qualifies(views, obs[n], thr) then [n] else [];
    RequestsAtAppend(kind, idx, vp, obs, selPre, tail, views, s);
  }

  /** Requests at positions inside a prefix are the same whether read from the prefix or the whole. */
  lemma RequestsAtPrefix(kind: ObsKind, idx: int, vp: int, obs: seq<Obs>, n: nat, sel: seq<nat>, views: seq<View>, s: Settings)
    requires n <= |obs| && AllFit(kind, views, obs) && AllFit(kind, views, obs[..n])
    requires forall k :: 0 <= k < |sel| ==> sel[k] < n
    ensures RequestsAt(kind, idx, vp, obs, sel, views, s) == RequestsAt(kind, idx, vp, obs[..n], sel, views, s)
  {
  }

  lemma RequestsAtAppend(kind: ObsKind, idx: int, vp: int, obs: seq<Obs>, sel: seq<nat>, tail: seq<nat>, views: seq<View>, s: Settings)
    requires AllFit(kind, views, obs)
    requires forall k :: 0 <= k < |sel| ==> sel[k] < |obs|
    requires forall k :: 0 <= k < |tail| ==> tail[k] < |obs|
    ensures RequestsAt(kind, idx, vp, obs, sel + tail, views, s) ==
      RequestsAt(kind, idx, vp, obs, sel, views, s) + RequestsAt(kind, idx, vp, obs, tail, views, s)
  {
  }

  predicate ListedFit(kind: ObsKind, idxs: seq<nat>, items: seq<Landmark>, views: seq<View>)
  {
    forall k :: 0 <= k < |idxs| ==> idxs[k] < |items| && AllFit(kind, views, items[idxs[k]].obs)
  }

  /** The edges of the landmarks listed in `idxs`, landmark after landmark; each names a
      listed landmark of its kind first and a matchable camera at or after `thr` last. */
  function LandmarkRequests(kind: ObsKind, idxs: seq<nat>, items: seq<Landmark>, views: seq<View>, thr: int, s: Settings): (r: seq<Request>)
    requires ListedFit(kind, idxs, items, views)
    ensures forall q :: q in r ==>
      (|q.ends| >= 2 && q.ends[0].table == LandmarkTable(kind) && q.ends[0].id in idxs &&
       q.ends[|q.ends| - 1].table == CamT && CamQualifies(views, q.ends[|q.ends| - 1].id, thr))
    decreases |idxs|
  {
    if idxs == [] then []
    else
      var n := |idxs| - 1;
      var l := items[idxs[n]];
      var rest := LandmarkRequests(kind, idxs[..n], items, views, thr, s);
      assert forall q :: q in rest ==> q.ends[0].id in idxs;
      rest + ObsRequests(kind, idxs[n], l.vp, l.obs, views, thr, s)
  }

  // ------------------------------------------------ plane edges

  function PointPlaneRequest(ptGid: int, plIdx: int, s: Settings): Request
  {
    Request(PointPlaneE, [Key(PtT, ptGid), Key(PlT, plIdx)], PlaneM, Scaled(s.weightPlane), KernelIf(s.useKernel, s.deltaPlane))
  }

  function LinePlaneRequest(lnGid: int, vp: int, plIdx: int, s: Settings): Request
  {
    Request(LinePlaneE, [Key(LnT, lnGid), Key(VpT, vp), Key(PlT, plIdx)], LinePlaneM(lnGid),
            Scaled(s.weightPlane), if s.useKernel then HuberRoot2(s.deltaPlane) else NoKernel)
  }

  /** Point-plane edges of one plane: one per listed point gid that has a vertex. */
  function MemberPointRequests(gids: seq<int>, ptT: map<int, nat>, plIdx: int, s: Settings): (r: seq<Request>)
    ensures forall q :: q in r ==>
      (q.kind == PointPlaneE && |q.ends| == 2 && q.ends[0].table == PtT &&
       q.ends[0].id in ptT && q.ends[0].id in gids && q.ends[1] == Key(PlT, plIdx))
    decreases |gids|
  {
    if gids == [] then []
    else
      var n := |gids| - 1;
      MemberPointRequests(gids[..n], ptT, plIdx, s) +
        (if gids[n] in ptT then [PointPlaneRequest(gids[n], plIdx, s)] else [])
  }

  /** Every listed line gid that has a vertex indexes a line. */
  predicate LineTableInRange(lnT: map<int, nat>, ils: seq<IdealLine3d>)
  {
    forall g :: g in lnT ==> 0 <= g < |ils|
  }

  /** Line-plane edges of one plane: one per listed line gid that has a vertex, also
      binding the line's vanishing point. */
  function MemberLineRequests(gids: seq<int>, lnT: map<int, nat>, ils: seq<IdealLine3d>, plIdx: int, s: Settings): (r: seq<Request>)
    requires LineTableInRange(lnT, ils)
    ensures forall q :: q in r ==>
      (q.kind == LinePlaneE && |q.ends| == 3 && q.ends[0].table == LnT &&
       q.ends[0].id in lnT && q.ends[0].id in gids && q.ends[2] == Key(PlT, plIdx))
    decreases |gids|
  {
    if gids == [] then []
    else
      var n := |gids| - 1;
      MemberLineRequests(gids[..n], lnT, ils, plIdx, s) +
        (if gids[n] in lnT then [LinePlaneRequest(gids[n], ils[gids[n]].vpGid, plIdx, s)] else [])
  }

  function PlanePointRequests(pls: seq<PrimaryPlane>, plIdxs: seq<nat>, ptT: map<int, nat>, s: Settings): (r: seq<Request>)
    requires forall k :: 0 <= k < |plIdxs| ==> plIdxs[k] < |pls|
    ensures forall q :: q in r ==>
      (q.kind == PointPlaneE && |q.ends| == 2 && q.ends[0].table == PtT && q.ends[0].id in ptT &&
       q.ends[1].table == PlT && q.ends[1].id in plIdxs)
    decreases |plIdxs|
  {
    if plIdxs == [] then []
    else
      var n := |plIdxs| - 1;
      var rest := PlanePointRequests(pls, plIdxs[..n], ptT, s);
      assert forall q :: q in rest ==> q.ends[1].id in plIdxs;
      rest + MemberPointRequests(pls[plIdxs[n]].kptGids, ptT, plIdxs[n], s)
  }

  function PlaneLineRequests(pls: seq<PrimaryPlane>, plIdxs: seq<nat>, lnT: map<int, nat>, ils: seq<IdealLine3d>, s: Settings): (r: seq<Request>)
    requires forall k :: 0 <= k < |plIdxs| ==> plIdxs[k] < |pls|
    requires LineTableInRange(lnT, ils)
    ensures forall q :: q in r ==>
      (q.kind == LinePlaneE && |q.ends| == 3 && q.ends[0].table == LnT && q.ends[0].id in lnT &&
       q.ends[2].table == PlT && q.ends[2].id in plIdxs)
    decreases |plIdxs|
  {
    if plIdxs == [] then []
    else
      var n := |plIdxs| - 1;
      var rest := PlaneLineRequests(pls, plIdxs[..n], lnT, ils, s);
      assert forall q :: q in rest ==> q.ends[2].id in plIdxs;
      rest + MemberLineRequests(pls[plIdxs[n]].ilnGids, lnT, ils, plIdxs[n], s)
  }

  // ------------------------------------------------ endpoint look-up

  /** Every endpoint key is present in its table. */
  predicate Resolvable(r: Request, t: Tables)
  {
    forall j :: 0 <= j < |r.ends| ==> r.ends[j].id in TableOf(t, r.ends[j].table)
  }

  /** A line-plane edge is robustified as soon as it is added, which needs a kernel. */
  predicate KernelMissing(r: Request)
  {
    r.kind == LinePlaneE && r.kernel == NoKernel
  }

  function Bind(r: Request, vids: seq<nat>): Edge
  {
    Edge(r.kind, vids, r.meas, r.info, r.kernel)
  }

  function Vids(r: Request, t: Tables): (v: seq<nat>)
    requires Resolvable(r, t)
    ensures |v| == |r.ends|
  {
    seq(|r.ends|, j requires 0 <= j < |r.ends| => TableOf(t, r.ends[j].table)[r.ends[j].id])
  }

  /** Look up an edge's endpoints; a missing vertex or a missing kernel ends the run. */
  function Resolve(r: Request, t: Tables): Result<Edge>
  {
    if !Resolvable(r, t) then Failure(MissingVertex)
    else if KernelMissing(r) then Failure(NullKernel)
    else Success(Bind(r, Vids(r, t)))
  }

  /** Resolve every request in order, stopping at the first failure. */
  function ResolveAll(reqs: seq<Request>, t: Tables): (res: Result<seq<Edge>>)
    decreases |reqs|
  {
    if reqs == [] then Success([])
    else
      var n := |reqs| - 1;
      match ResolveAll(reqs[..n], t)
      case Failure(e) => Failure(e)
      case Success(es) =>
        match Resolve(reqs[n], t)
        case Failure(e) => Failure(e)
        case Success(edge) => Success(es + [edge])
  }

  /** Building succeeds iff every endpoint of every edge has a vertex (and no
      line-plane edge lacks its kernel); then edge k is request k with each key
      replaced by its vertex id. */
  lemma {:induction false} ResolveAllSpec(reqs: seq<Request>, t: Tables)
    ensures ResolveAll(reqs, t).Success? <==>
      forall k :: 0 <= k < |reqs| ==> Resolvable(reqs[k], t) && !KernelMissing(reqs[k])
    ensures ResolveAll(reqs, t).Success? ==>
      |ResolveAll(reqs, t).value| == |reqs| &&
      forall k :: 0 <= k < |reqs| ==> ResolveAll(reqs, t).value[k] == Bind(reqs[k], Vids(reqs[k], t))
    decreases |reqs|
  {
    if reqs != [] {
      var n := |reqs| - 1;
      ResolveAllSpec(reqs[..n], t);
      assert forall k :: 0 <= k < n ==> reqs[..n][k] == reqs[k];
    }
  }

  // ------------------------------------------------ look-up as written

  /** `unordered_map::operator[]` on a missing key inserts and returns 0. */
  function LookupAsWritten(m: map<int, nat>, key: int): nat
  {
    if key in m then m[key] else 0
  }

  /** The source's look-up: ids come from operator[], and only a vertex id absent from
      the graph (or a missing kernel) stops the run. */
  function ResolveAsWritten(r: Request, t: Tables, numVerts: nat): Result<Edge>
  {
    var vids := seq(|r.ends|, j requires 0 <= j < |r.ends| => LookupAsWritten(TableOf(t, r.ends[j].table), r.ends[j].id));
    if exists j :: 0 <= j < |vids| && vids[j] >= numVerts then Failure(MissingVertex)
    else if KernelMissing(r) then Failure(NullKernel)
    else Success(Bind(r, vids))
  }

  /** As written, an endpoint whose key is missing is silently bound to vertex 0 (the
      first camera of the window), where the intended behaviour is to stop. */
  lemma AsWrittenBindsToVertexZero(r: Request, t: Tables, numVerts: nat, j: nat)
    requires j < |r.ends| && r.ends[j].id !in TableOf(t, r.ends[j].table)
    requires forall i :: 0 <= i < |r.ends| && r.ends[i].id in TableOf(t, r.ends[i].table) ==>
      TableOf(t, r.ends[i].table)[r.ends[i].id] < numVerts
    requires numVerts > 0 && !KernelMissing(r)
    ensures ResolveAsWritten(r, t, numVerts).Success?
    ensures ResolveAsWritten(r, t, numVerts).value.verts[j] == 0
    ensures Resolve(r, t) == Failure(MissingVertex)
  {
  }

  /** A concrete case: a line edge whose vanishing point has no vertex.  Vertices 0 and 1
      are cameras of views 0 and 1 and vertex 2 is line 0; as written the edge binds
      camera 0 in the vanishing-point slot, while the corrected look-up stops. */
  lemma LineEdgeWithoutVanishingPoint()
    ensures var t := Tables(map[0 := 0, 1 := 1], map[], map[], map[0 := 2], map[]);
            var r := Request(LineVpCamE, [Key(LnT, 0), Key(VpT, 0), Key(CamT, 1)], SegM([]), Scaled(1.0), NoKernel);
            ResolveAsWritten(r, t, 3) == Success(Edge(LineVpCamE, [2, 0, 1], SegM([]), Scaled(1.0), NoKernel)) &&
            Resolve(r, t) == Failure(MissingVertex)
  {
    var t := Tables(map[0 := 0, 1 := 1], map[], map[], map[0 := 2], map[]);
    var r := Request(LineVpCamE, [Key(LnT, 0), Key(VpT, 0), Key(CamT, 1)], SegM([]), Scaled(1.0), NoKernel);
    var vids := seq(|r.ends|, j requires 0 <= j < |r.ends| => LookupAsWritten(TableOf(t, r.ends[j].table), r.ends[j].id));
    assert vids == [2, 0, 1];
    assert !Resolvable(r, t) by {
      assert r.ends[1].id !in TableOf(t, r.ends[1].table);
    }
  }
}
