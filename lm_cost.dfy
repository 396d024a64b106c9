/** The cost function of the Levenberg-Marquardt back end (`costFun_BA_PtLnVp`).
    It decodes the parameter vector at the layout's offsets into projection
    matrices, points, vanishing points and line mid-points, writes the residuals
    into the solver's `error` buffer (two per point observation, two per line
    segment, each robustified), and records the point and line totals and means.
    Projection, line fitting and the robust kernel are numeric and come from
    `LmGeometry`. */
module LmCost {
  import opened SeqUtil
  import opened Entities
  import opened LmLayout

  /** Kernel widths of the pseudo-Huber loss. */
  const PointKernel: real := 2.0
  const LineKernel: real := 5.0

  const IdentityRotation := Rotation([1.0, 0.0, 0.0, 0.0, 1.0, 0.0, 0.0, 0.0, 1.0])
  const Origin := Vec3(0.0, 0.0, 0.0)

  /** K [I | 0]. */
  function FirstCamera(K: Intrinsics, geo: LmGeometry): seq<real>
  {
    geo.camera(K, IdentityRotation, Origin)
  }

  predicate LayoutOk(L: Layout)
  {
    1 <= L.fp <= L.numView && 0 <= L.frm <= L.fp
  }

  // ------------------------------------------------------- projection matrices

  /** `prevPs`: K [R | t] of the views [frm, fp), whose poses are not parameters. */
  function PrevPs(views: seq<View>, frm: int, fp: int, K: Intrinsics, geo: LmGeometry): (r: seq<seq<real>>)
    requires 0 <= frm <= fp <= |views|
    ensures |r| == fp - frm
    ensures forall j :: 0 <= j < |r| ==> r[j] == geo.camera(K, views[frm + j].r, views[frm + j].t)
  {
    seq(fp - frm, j requires 0 <= j < fp - frm => geo.camera(K, views[frm + j].r, views[frm + j].t))
  }

  method PrevPsLoop(views: seq<View>, frm: int, fp: int, K: Intrinsics, geo: LmGeometry) returns (ps: seq<seq<real>>)
    requires 0 <= frm <= fp <= |views|
    ensures ps == PrevPs(views, frm, fp, K, geo)
  {
    ps := [];
    var i := frm;
    while i < fp
      invariant frm <= i <= fp && |ps| == i - frm
      invariant forall j :: 0 <= j < |ps| ==> ps[j] == geo.camera(K, views[frm + j].r, views[frm + j].t)
    {
      ps := ps + [geo.camera(K, views[i].r, views[i].t)];
      i := i + 1;
    }
  }

  /** K [R | t] of an optimised view, from its decoded pose. */
  function DecodedCamera(p: seq<real>, L: Layout, i: int, K: Intrinsics, geo: LmGeometry): seq<real>
    requires |p| == NumPara(L) && 0 <= L.fp <= i < L.numView
  {
    var pp := DecodedPose(p, L, i);
    geo.camera(K, PoseRotation(pp, geo), PoseTranslation(pp, geo))
  }

  /** `Ps`: view 0 gets K [I | 0] (set after the copy of `prevPs`, so it wins even when
      view 0 is inside [frm, fp)), optimised views their decoded pose, the views
      [frm, fp) their `prevPs` entry, and older views nothing. */
  function ProjSpec(p: seq<real>, L: Layout, prev: seq<seq<real>>, K: Intrinsics, geo: LmGeometry): (r: seq<Proj>)
    requires LayoutOk(L) && |p| == NumPara(L) && |prev| == L.fp - L.frm
    ensures |r| == L.numView
  {
    seq(L.numView, i requires 0 <= i < L.numView =>
      if i == 0 then Camera(FirstCamera(K, geo))
      else if L.fp <= i then Camera(DecodedCamera(p, L, i, K, geo))
      else if L.frm <= i then Camera(prev[i - L.frm])
      else Unset)
  }

  /** With the driver's `prevPs`, `Ps[0]` is K [I | 0], every other view in
      [frontFrmIdx, frontPosIdx) is projected with its stored pose, and views older
      than frontFrmIdx have no projection. */
  lemma PrevPsFill(views: seq<View>, p: seq<real>, L: Layout, K: Intrinsics, geo: LmGeometry)
    requires LayoutOk(L) && |views| == L.numView && |p| == NumPara(L)
    ensures var ps := ProjSpec(p, L, PrevPs(views, L.frm, L.fp, K, geo), K, geo);
            && ps[0] == Camera(geo.camera(K, IdentityRotation, Origin))
            && (forall i :: L.frm <= i < L.fp && i != 0 ==> ps[i] == Camera(geo.camera(K, views[i].r, views[i].t)))
            && (forall i :: 0 < i < L.frm ==> ps[i] == Unset)
  {
    var ps := ProjSpec(p, L, PrevPs(views, L.frm, L.fp, K, geo), K, geo);
    assert ps[0] == Camera(FirstCamera(K, geo));
  }

  /** The pose-decoding loops of the cost function: `pidx` ends where the points begin. */
  method DecodePoses(p: seq<real>, L: Layout, prev: seq<seq<real>>, K: Intrinsics, geo: LmGeometry)
    returns (ps: seq<Proj>, pidx: nat)
    requires LayoutOk(L) && |p| == NumPara(L) && |prev| == L.fp - L.frm
    ensures ps == ProjSpec(p, L, prev, K, geo) && pidx == PointBase(L)
  {
    ps := seq(L.numView, _ => Unset);
    var i, j := L.frm, 0;
    while i < L.fp
      invariant L.frm <= i <= L.fp && j == i - L.frm && |ps| == L.numView
      invariant forall k :: 0 <= k < L.numView ==> ps[k] == (if L.frm <= k < i then Camera(prev[k - L.frm]) else Unset)
    {
      ps := ps[i := Camera(prev[j])];
      i, j := i + 1, j + 1;
    }
    ps := ps[0 := Camera(FirstCamera(K, geo))];
    pidx := 0;
    i := L.fp;
    while i < L.numView
      invariant L.fp <= i <= L.numView && pidx == PoseSpan(L.fp, i) && |ps| == L.numView
      invariant forall k :: 0 <= k < L.numView ==>
                  ps[k] == (if k == 0 then Camera(FirstCamera(K, geo))
                            else if L.fp <= k < i then Camera(DecodedCamera(p, L, k, K, geo))
                            else if L.frm <= k < L.fp then Camera(prev[k - L.frm])
                            else Unset)
    {
      PoseSpanMono(L.fp, i, L.numView);
      var q := Quat(p[pidx], p[pidx + 1], p[pidx + 2], p[pidx + 3]);
      var t: Vec3;
      if i == 1 {
        t := geo.fromAngles(p[pidx + 4], p[pidx + 5]);
      } else {
        t := Vec3(p[pidx + 4], p[pidx + 5], p[pidx + 6]);
      }
      assert geo.camera(K, geo.fromQuat(q), t) == DecodedCamera(p, L, i, K, geo);
      ps := ps[i := Camera(geo.camera(K, geo.fromQuat(q), t))];
      pidx := pidx + PoseSlots(i);
      i := i + 1;
    }
  }

  /** The vanishing-point loop: every vanishing point is read, three slots each. */
  method DecodeVps(p: seq<real>, pidx0: nat, L: Layout) returns (vps: seq<Vec3>, pidx: nat)
    requires |p| == NumPara(L) && pidx0 == VpBase(L)
    ensures |vps| == L.numVp && pidx == LineBase(L)
    ensures forall k :: 0 <= k < L.numVp ==> vps[k] == DecodedVp(p, L, k)
  {
    vps, pidx := [], pidx0;
    var i := 0;
    while i < L.numVp
      invariant 0 <= i <= L.numVp && |vps| == i && pidx == VpBase(L) + 3 * i
      invariant forall k :: 0 <= k < i ==> vps[k] == DecodedVp(p, L, k)
    {
      vps := vps + [Vec3(p[pidx], p[pidx + 1], p[pidx + 2])];
      pidx := pidx + 3;
      i := i + 1;
    }
  }

  // ------------------------------------------------------------- residuals

  /** Residuals written to `error`, and the squares pushed to `err_pt_vec` or `err_ln_vec`. */
  datatype Contrib = Contrib(res: seq<real>, sq: seq<real>)

  function Join(a: Contrib, b: Contrib): Contrib
  {
    Contrib(a.res + b.res, a.sq + b.sq)
  }

  function Sq(x: real): real { x * x }

  function PairSq(res: seq<real>, k: nat): real
    requires 2 * k + 1 < |res|
  {
    Sq(res[2 * k]) + Sq(res[2 * k + 1])
  }

  /** Each `err_pt_vec` entry is the squared norm of one residual pair. */
  predicate PointPaired(c: Contrib)
  {
    |c.res| == 2 * |c.sq| && forall k :: 0 <= k < |c.sq| ==> c.sq[k] == PairSq(c.res, k)
  }

  /** Each `err_ln_vec` entry is the square of one residual; residuals come in pairs. */
  predicate LineSquared(c: Contrib)
  {
    |c.res| == |c.sq| && |c.res| % 2 == 0 && forall k :: 0 <= k < |c.sq| ==> c.sq[k] == Sq(c.res[k])
  }

  lemma JoinPointPaired(a: Contrib, b: Contrib)
    requires PointPaired(a) && PointPaired(b)
    ensures PointPaired(Join(a, b))
  {
    var j := Join(a, b);
    forall k | 0 <= k < |j.sq|
      ensures j.sq[k] == PairSq(j.res, k)
    {
      if k < |a.sq| {
        assert j.res[2 * k] == a.res[2 * k] && j.res[2 * k + 1] == a.res[2 * k + 1];
      } else {
        var m := k - |a.sq|;
        assert j.res[2 * k] == b.res[2 * m] && j.res[2 * k + 1] == b.res[2 * m + 1];
      }
    }
  }

  lemma JoinLineSquared(a: Contrib, b: Contrib)
    requires LineSquared(a) && LineSquared(b)
    ensures LineSquared(Join(a, b))
  {
    var j := Join(a, b);
    assert forall k :: |a.sq| <= k < |j.sq| ==> j.res[k] == b.res[k - |a.sq|] && j.sq[k] == b.sq[k - |a.sq|];
  }

  /** The environment the residuals are evaluated in: the views' detections, the
      first reprojection view, the projection matrices and the numerics. */
  datatype Env = Env(views: seq<View>, frm: int, ps: seq<Proj>, geo: LmGeometry)

  /** One point observation: the offset of the projection from the detected pixel,
      each coordinate robustified with kernel 2. */
  function PointPair(env: Env, x: Vec3, o: Obs): (c: Contrib)
    requires |env.ps| == |env.views| && 0 <= o.view < |env.views| && 0 <= o.local < |env.views[o.view].featurePoints|
  {
    var d := env.geo.ptOffset(env.ps[o.view], x, env.views[o.view].featurePoints[o.local]);
    var ex := env.geo.robust(d.0, PointKernel);
    var ey := env.geo.robust(d.1, PointKernel);
    Contrib([ex, ey], [Sq(ex) + Sq(ey)])
  }

  /** The observations of one point in view frm or later, in order. */
  function PointObsC(env: Env, x: Vec3, obs: seq<Obs>): (c: Contrib)
    requires |env.ps| == |env.views| && PointObsValid(env.views, obs)
    ensures |c.res| == 2 * |c.sq|
    decreases |obs|
  {
    if obs == [] then Contrib([], [])
    else
      var o := obs[|obs| - 1];
      var c := PointObsC(env, x, obs[..|obs| - 1]);
      if o.view >= env.frm then Join(c, PointPair(env, x, o)) else c
  }

  /** A point as the residual loops see it: the position it is projected from, and its observations. */
  datatype PtItem = PtItem(pos: Vec3, obs: seq<Obs>)

  predicate PtItemsOk(env: Env, items: seq<PtItem>)
  {
    |env.ps| == |env.views| && forall k :: 0 <= k < |items| ==> PointObsValid(env.views, items[k].obs)
  }

  function PointsC(env: Env, items: seq<PtItem>): (c: Contrib)
    requires PtItemsOk(env, items)
    ensures |c.res| == 2 * |c.sq|
    decreases |items|
  {
    if items == [] then Contrib([], [])
    else
      var n := |items| - 1;
      Join(PointsC(env, items[..n]), PointObsC(env, items[n].pos, items[n].obs))
  }

  /** Optimised points are projected from the parameter vector, three slots each. */
  function OptPointItems(p: seq<real>, L: Layout, kps: seq<KeyPoint3d>): (r: seq<PtItem>)
    requires |p| == NumPara(L) && forall k :: 0 <= k < |L.kOpt| ==> L.kOpt[k] < |kps|
    ensures |r| == |L.kOpt|
    ensures forall k :: 0 <= k < |L.kOpt| ==> r[k] == PtItem(DecodedPoint(p, L, k), kps[L.kOpt[k]].obs)
  {
    seq(|L.kOpt|, k requires 0 <= k < |L.kOpt| => PtItem(DecodedPoint(p, L, k), kps[L.kOpt[k]].obs))
  }

  /** Reproject-only points are projected from their stored position. */
  function RpjPointItems(L: Layout, kps: seq<KeyPoint3d>): (r: seq<PtItem>)
    requires forall k :: 0 <= k < |L.kRpj| ==> L.kRpj[k] < |kps|
    ensures |r| == |L.kRpj|
    ensures forall k :: 0 <= k < |L.kRpj| ==> r[k] == PtItem(kps[L.kRpj[k]].pos, kps[L.kRpj[k]].obs)
  {
    seq(|L.kRpj|, k requires 0 <= k < |L.kRpj| => PtItem(kps[L.kRpj[k]].pos, kps[L.kRpj[k]].obs))
  }

  /** Where a line's image comes from: an optimised line passes through its decoded
      mid-point with the direction of its decoded vanishing point; a reproject-only
      line is projected as stored. */
  datatype LineSource = Through(e1: Vec3, vp: Vec3) | Reprojected(il: IdealLine3d)

  function LineEq(geo: LmGeometry, src: LineSource, P: Proj): Vec3
  {
    match src
    case Through(e1, vp) => geo.lineThrough(P, e1, vp)
    case Reprojected(il) => geo.projectLine(il, P)
  }

  /** The first m segments of a detection: one robustified residual (kernel 5) per
      segment, written twice, and its square pushed twice. */
  function SegC(geo: LmGeometry, leq: Vec3, ends: seq<Point2>, m: nat): (c: Contrib)
    requires 2 * m <= |ends|
    ensures |c.res| == |c.sq| == 2 * m
    decreases m
  {
    if m == 0 then Contrib([], [])
    else
      var e := geo.robust(geo.segArea(leq, ends[2 * m - 2], ends[2 * m - 1]), LineKernel);
      Join(SegC(geo, leq, ends, m - 1), Contrib([e, e], [Sq(e), Sq(e)]))
  }

  lemma SegCStep(geo: LmGeometry, leq: Vec3, ends: seq<Point2>, m: nat)
    requires 0 < m && 2 * m <= |ends|
    ensures var v := geo.robust(geo.segArea(leq, ends[2 * m - 2], ends[2 * m - 1]), LineKernel);
            SegC(geo, leq, ends, m) == Join(SegC(geo, leq, ends, m - 1), Contrib([v, v], [Sq(v), Sq(v)]))
  {
  }

  function Endpoints(env: Env, o: Obs): seq<Point2>
    requires 0 <= o.view < |env.views| && 0 <= o.local < |env.views[o.view].idealLines|
  {
    env.views[o.view].idealLines[o.local].lsEndpoints
  }

  /** The observations of one line in view frm or later, each contributing all its segments. */
  function LineObsC(env: Env, src: LineSource, obs: seq<Obs>): (c: Contrib)
    requires |env.ps| == |env.views| && LineObsValid(env.views, obs)
    ensures |c.res| == |c.sq| && |c.res| % 2 == 0
    decreases |obs|
  {
    if obs == [] then Contrib([], [])
    else
      var o := obs[|obs| - 1];
      var a := LineObsC(env, src, obs[..|obs| - 1]);
      if o.view >= env.frm then
        var ends := Endpoints(env, o);
        Join(a, SegC(env.geo, LineEq(env.geo, src, env.ps[o.view]), ends, |ends| / 2))
      else a
  }

  datatype LnItem = LnItem(src: LineSource, obs: seq<Obs>)

  predicate LnItemsOk(env: Env, items: seq<LnItem>)
  {
    |env.ps| == |env.views| && forall k :: 0 <= k < |items| ==> LineObsValid(env.views, items[k].obs)
  }

  function LinesC(env: Env, items: seq<LnItem>): (c: Contrib)
    requires LnItemsOk(env, items)
    ensures |c.res| == |c.sq| && |c.res| % 2 == 0
    decreases |items|
  {
    if items == [] then Contrib([], [])
    else
      var n := |items| - 1;
      Join(LinesC(env, items[..n]), LineObsC(env, items[n].src, items[n].obs))
  }

  function OptLineItems(p: seq<real>, L: Layout, ils: seq<IdealLine3d>): (r: seq<LnItem>)
    requires |p| == NumPara(L)
    requires forall k :: 0 <= k < |L.lOpt| ==> L.lOpt[k] < |ils| && 0 <= ils[L.lOpt[k]].vpGid < L.numVp
    ensures |r| == |L.lOpt|
    ensures forall k :: 0 <= k < |L.lOpt| ==>
      r[k] == LnItem(Through(DecodedLine(p, L, k), DecodedVp(p, L, ils[L.lOpt[k]].vpGid)), ils[L.lOpt[k]].obs)
  {
    seq(|L.lOpt|, k requires 0 <= k < |L.lOpt| =>
      LnItem(Through(DecodedLine(p, L, k), DecodedVp(p, L, ils[L.lOpt[k]].vpGid)), ils[L.lOpt[k]].obs))
  }

  function RpjLineItems(L: Layout, ils: seq<IdealLine3d>): (r: seq<LnItem>)
    requires forall k :: 0 <= k < |L.lRpj| ==> L.lRpj[k] < |ils|
    ensures |r| == |L.lRpj|
    ensures forall k :: 0 <= k < |L.lRpj| ==> r[k] == LnItem(Reprojected(ils[L.lRpj[k]]), ils[L.lRpj[k]].obs)
  {
    seq(|L.lRpj|, k requires 0 <= k < |L.lRpj| => LnItem(Reprojected(ils[L.lRpj[k]]), ils[L.lRpj[k]].obs))
  }

  // ---------------------------------------------------------- the cost spec

  /** What the cost function relies on without checking: at least one view, a layout
      that fits the map (the driver passes `LayoutOf`), valid observations, and whole segments. */
  predicate CostReady(st: MapState, L: Layout)
  {
    && |st.views| >= 1
    && LayoutFits(st, L) && LayoutOk(L)
    && ObservationsValid(st.views, st.keyPoints, st.vanishingPoints, st.idealLines)
    && SegmentsPaired(st.views)
  }

  datatype Totals = Totals(errPt: real, errLn: real, errAll: real, errPtMean: Option<real>, errLnMean: Option<real>)

  /** `err_pt` and `err_ln` are the sums of the pushed squares; the point mean divides
      by the number of point entries and the line mean by half the number of line
      entries (integer division); a zero divisor gives NaN in the source, None here. */
  function TotalsOf(pc: Contrib, lc: Contrib): Totals
  {
    var cp := Sum(pc.sq);
    var cl := Sum(lc.sq);
    Totals(cp, cl, cp + cl,
           if |pc.sq| == 0 then None else Some(cp / (|pc.sq| as real)),
           if |lc.sq| / 2 == 0 then None else Some(cl / ((|lc.sq| / 2) as real)))
  }

  function EnvOf(st: MapState, L: Layout, p: seq<real>, prev: seq<seq<real>>, K: Intrinsics, geo: LmGeometry): (env: Env)
    requires CostReady(st, L) && |p| == NumPara(L) && |prev| == L.fp - L.frm
    ensures |env.ps| == |env.views| == |st.views|
  {
    Env(st.views, L.frm, ProjSpec(p, L, prev, K, geo), geo)
  }

  lemma ItemsOk(st: MapState, L: Layout, p: seq<real>, env: Env)
    requires CostReady(st, L) && |p| == NumPara(L) && env.views == st.views && |env.ps| == |env.views|
    ensures PtItemsOk(env, OptPointItems(p, L, st.keyPoints)) && PtItemsOk(env, RpjPointItems(L, st.keyPoints))
    ensures LnItemsOk(env, OptLineItems(p, L, st.idealLines)) && LnItemsOk(env, RpjLineItems(L, st.idealLines))
  {
    var kps, ils := st.keyPoints, st.idealLines;
    assert forall k :: 0 <= k < |L.kOpt| ==> PointObsValid(st.views, kps[L.kOpt[k]].obs);
    assert forall k :: 0 <= k < |L.kRpj| ==> PointObsValid(st.views, kps[L.kRpj[k]].obs);
    assert forall k :: 0 <= k < |L.lOpt| ==> LineObsValid(st.views, ils[L.lOpt[k]].obs);
    assert forall k :: 0 <= k < |L.lRpj| ==> LineObsValid(st.views, ils[L.lRpj[k]].obs);
  }

  function PointContrib(st: MapState, L: Layout, p: seq<real>, env: Env): Contrib
    requires CostReady(st, L) && |p| == NumPara(L) && env.views == st.views && |env.ps| == |env.views|
  {
    ItemsOk(st, L, p, env);
    Join(PointsC(env, OptPointItems(p, L, st.keyPoints)), PointsC(env, RpjPointItems(L, st.keyPoints)))
  }

  function LineContrib(st: MapState, L: Layout, p: seq<real>, env: Env): Contrib
    requires CostReady(st, L) && |p| == NumPara(L) && env.views == st.views && |env.ps| == |env.views|
  {
    ItemsOk(st, L, p, env);
    Join(LinesC(env, OptLineItems(p, L, st.idealLines)), LinesC(env, RpjLineItems(L, st.idealLines)))
  }

  datatype CostOut = CostOut(error: seq<real>, totals: Totals)

  /** The residual buffer and the totals after one evaluation at `p`: optimised
      points, reproject-only points, optimised lines, reproject-only lines. */
  function CostSpec(st: MapState, L: Layout, p: seq<real>, prev: seq<seq<real>>, K: Intrinsics, geo: LmGeometry): CostOut
    requires CostReady(st, L) && |p| == NumPara(L) && |prev| == L.fp - L.frm
  {
    var env := EnvOf(st, L, p, prev, K, geo);
    var pc := PointContrib(st, L, p, env);
    var lc := LineContrib(st, L, p, env);
    CostOut(pc.res + lc.res, TotalsOf(pc, lc))
  }

  // ---------------------------------------------------------- residual count

  lemma {:induction false} PointObsCount(env: Env, x: Vec3, obs: seq<Obs>)
    requires |env.ps| == |env.views| && PointObsValid(env.views, obs)
    ensures |PointObsC(env, x, obs).res| == 2 * ObsFrom(obs, env.frm)
    decreases |obs|
  {
    if obs != [] {
      PointObsCount(env, x, obs[..|obs| - 1]);
    }
  }

  lemma {:induction false} PointsCount(env: Env, kps: seq<KeyPoint3d>, idx: seq<nat>, items: seq<PtItem>)
    requires PtItemsOk(env, items) && |items| == |idx|
    requires forall k :: 0 <= k < |idx| ==> idx[k] < |kps| && items[k].obs == kps[idx[k]].obs
    ensures |PointsC(env, items).res| == PointMeas(kps, idx, env.frm)
    decreases |idx|
  {
    if idx != [] {
      var n := |idx| - 1;
      PointsCount(env, kps, idx[..n], items[..n]);
      PointObsCount(env, items[n].pos, items[n].obs);
    }
  }

  lemma {:induction false} SegsCount(env: Env, o: Obs)
    requires 0 <= o.view < |env.views| && 0 <= o.local < |env.views[o.view].idealLines|
    requires SegmentsPaired(env.views)
    ensures |Endpoints(env, o)| % 2 == 0 && 2 * (|Endpoints(env, o)| / 2) == |Endpoints(env, o)|
  {
    assert |env.views[o.view].idealLines[o.local].lsEndpoints| % 2 == 0;
  }

  lemma {:induction false} LineObsCount(env: Env, src: LineSource, obs: seq<Obs>)
    requires |env.ps| == |env.views| && LineObsValid(env.views, obs) && SegmentsPaired(env.views)
    ensures |LineObsC(env, src, obs).res| == LineObsMeas(obs, env.views, env.frm)
    decreases |obs|
  {
    if obs != [] {
      LineObsCount(env, src, obs[..|obs| - 1]);
      SegsCount(env, obs[|obs| - 1]);
    }
  }

  lemma {:induction false} LinesCount(env: Env, ils: seq<IdealLine3d>, idx: seq<nat>, items: seq<LnItem>)
    requires LnItemsOk(env, items) && |items| == |idx| && SegmentsPaired(env.views)
    requires forall k :: 0 <= k < |idx| ==> idx[k] < |ils| && items[k].obs == ils[idx[k]].obs
    ensures forall k :: 0 <= k < |idx| ==> LineObsValid(env.views, ils[idx[k]].obs)
    ensures |LinesC(env, items).res| == LineMeas(ils, idx, env.views, env.frm)
    decreases |idx|
  {
    assert forall k :: 0 <= k < |idx| ==> LineObsValid(env.views, items[k].obs);
    if idx != [] {
      var n := |idx| - 1;
      LinesCount(env, ils, idx[..n], items[..n]);
      LineObsCount(env, items[n].src, items[n].obs);
    }
  }

  /** Two point residuals per observation in view frm or later, optimised points first. */
  lemma PointResidualCount(st: MapState, L: Layout, p: seq<real>, env: Env)
    requires CostReady(st, L) && |p| == NumPara(L) && env.views == st.views && |env.ps| == |env.views|
    requires env.frm == L.frm
    ensures |PointContrib(st, L, p, env).res| == PtMeas(st, L)
  {
    ItemsOk(st, L, p, env);
    PointsCount(env, st.keyPoints, L.kOpt, OptPointItems(p, L, st.keyPoints));
    PointsCount(env, st.keyPoints, L.kRpj, RpjPointItems(L, st.keyPoints));
  }

  /** With whole segments, one line residual per stored endpoint of each observation in
      view frm or later, optimised lines first. */
  lemma LineResidualCount(st: MapState, L: Layout, p: seq<real>, env: Env)
    requires CostReady(st, L) && |p| == NumPara(L) && env.views == st.views && |env.ps| == |env.views|
    requires env.frm == L.frm
    ensures |LineContrib(st, L, p, env).res| == LnMeas(st, L)
  {
    ItemsOk(st, L, p, env);
    LinesCount(env, st.idealLines, L.lOpt, OptLineItems(p, L, st.idealLines));
    LinesCount(env, st.idealLines, L.lRpj, RpjLineItems(L, st.idealLines));
  }

  /** With whole segments, the residuals written fill exactly the numMeas slots the
      driver allocated: two per point observation, one per segment endpoint. */
  lemma ResidualCount(st: MapState, L: Layout, p: seq<real>, env: Env)
    requires CostReady(st, L) && |p| == NumPara(L) && env.views == st.views && |env.ps| == |env.views|
    requires env.frm == L.frm
    ensures |PointContrib(st, L, p, env).res| + |LineContrib(st, L, p, env).res| == NumMeas(st, L)
  {
    PointResidualCount(st, L, p, env);
    LineResidualCount(st, L, p, env);
  }

  // ------------------------------------------------------------ prefix bounds

  lemma {:induction false} PointObsPrefix(env: Env, x: Vec3, obs: seq<Obs>, j: nat)
    requires |env.ps| == |env.views| && PointObsValid(env.views, obs) && j <= |obs|
    ensures |PointObsC(env, x, obs[..j]).res| <= |PointObsC(env, x, obs).res|
    decreases |obs|
  {
    if j < |obs| {
      var n := |obs| - 1;
      assert obs[..n][..j] == obs[..j];
      PointObsPrefix(env, x, obs[..n], j);
    } else {
      assert obs[..j] == obs;
    }
  }

  lemma {:induction false} PointsPrefix(env: Env, items: seq<PtItem>, i: nat)
    requires PtItemsOk(env, items) && i <= |items|
    ensures |PointsC(env, items[..i]).res| <= |PointsC(env, items).res|
    decreases |items|
  {
    if i < |items| {
      var n := |items| - 1;
      assert items[..n][..i] == items[..i];
      PointsPrefix(env, items[..n], i);
    } else {
      assert items[..i] == items;
    }
  }

  lemma {:induction false} LineObsPrefix(env: Env, src: LineSource, obs: seq<Obs>, j: nat)
    requires |env.ps| == |env.views| && LineObsValid(env.views, obs) && j <= |obs|
    ensures |LineObsC(env, src, obs[..j]).res| <= |LineObsC(env, src, obs).res|
    decreases |obs|
  {
    if j < |obs| {
      var n := |obs| - 1;
      assert obs[..n][..j] == obs[..j];
      LineObsPrefix(env, src, obs[..n], j);
    } else {
      assert obs[..j] == obs;
    }
  }

  lemma {:induction false} LinesPrefix(env: Env, items: seq<LnItem>, i: nat)
    requires LnItemsOk(env, items) && i <= |items|
    ensures |LinesC(env, items[..i]).res| <= |LinesC(env, items).res|
    decreases |items|
  {
    if i < |items| {
      var n := |items| - 1;
      assert items[..n][..i] == items[..i];
      LinesPrefix(env, items[..n], i);
    } else {
      assert items[..i] == items;
    }
  }

  // ------------------------------------------------------------ the loops

  lemma AppendAssoc(pre: seq<real>, a: seq<real>, b: seq<real>)
    ensures (pre + a) + b == pre + (a + b)
  {
  }

  lemma PointsStep(env: Env, items: seq<PtItem>, i: nat)
    requires PtItemsOk(env, items) && i < |items|
    ensures PtItemsOk(env, items[..i]) && PtItemsOk(env, items[..i + 1])
    ensures PointsC(env, items[..i + 1]) == Join(PointsC(env, items[..i]), PointObsC(env, items[i].pos, items[i].obs))
  {
    assert items[..i + 1][..i] == items[..i];
  }

  lemma LinesStep(env: Env, items: seq<LnItem>, i: nat)
    requires LnItemsOk(env, items) && i < |items|
    ensures LnItemsOk(env, items[..i]) && LnItemsOk(env, items[..i + 1])
    ensures LinesC(env, items[..i + 1]) == Join(LinesC(env, items[..i]), LineObsC(env, items[i].src, items[i].obs))
  {
    assert items[..i + 1][..i] == items[..i];
  }

  /** One point observation: the pixel offset is written at `e` and `e + 1`, then each
      slot is robustified in place; the slots before `e` stay. */
  method WritePointPair(error: array<real>, e: nat, env: Env, x: Vec3, o: Obs) returns (s: real)
    requires |env.ps| == |env.views| && 0 <= o.view < |env.views| && 0 <= o.local < |env.views[o.view].featurePoints|
    requires e + 2 <= error.Length
    modifies error
    ensures error[..e + 2] == old(error[..e]) + PointPair(env, x, o).res
    ensures [s] == PointPair(env, x, o).sq
  {
    var d := env.geo.ptOffset(env.ps[o.view], x, env.views[o.view].featurePoints[o.local]);
    error[e] := d.0;
    error[e + 1] := d.1;
    error[e] := env.geo.robust(error[e], PointKernel);
    error[e + 1] := env.geo.robust(error[e + 1], PointKernel);
    s := Sq(error[e]) + Sq(error[e + 1]);
    assert error[..e + 2] == old(error[..e]) + [error[e], error[e + 1]];
  }

  lemma PointObsStep(env: Env, x: Vec3, obs: seq<Obs>, j: nat)
    requires |env.ps| == |env.views| && PointObsValid(env.views, obs) && j < |obs|
    ensures PointObsValid(env.views, obs[..j]) && PointObsValid(env.views, obs[..j + 1])
    ensures |PointObsC(env, x, obs[..j + 1]).res| <= |PointObsC(env, x, obs).res|
    ensures PointObsC(env, x, obs[..j + 1]) ==
              if obs[j].view >= env.frm then Join(PointObsC(env, x, obs[..j]), PointPair(env, x, obs[j]))
              else PointObsC(env, x, obs[..j])
  {
    assert obs[..j + 1][..j] == obs[..j];
    PointObsPrefix(env, x, obs, j + 1);
  }

  /** The inner loop over one point's observations. */
  method PointObsLoop(error: array<real>, e0: nat, x: Vec3, obs: seq<Obs>, env: Env) returns (e: nat, sq: seq<real>)
    requires |env.ps| == |env.views| && PointObsValid(env.views, obs)
    requires e0 + |PointObsC(env, x, obs).res| <= error.Length
    modifies error
    ensures e == e0 + |PointObsC(env, x, obs).res|
    ensures error[..e] == old(error[..e0]) + PointObsC(env, x, obs).res
    ensures sq == PointObsC(env, x, obs).sq
  {
    ghost var pre := error[..e0];
    e, sq := e0, [];
    var j := 0;
    while j < |obs|
      invariant 0 <= j <= |obs|
      invariant e == e0 + |PointObsC(env, x, obs[..j]).res|
      invariant e <= error.Length
      invariant error[..e] == pre + PointObsC(env, x, obs[..j]).res
      invariant sq == PointObsC(env, x, obs[..j]).sq
    {
      PointObsStep(env, x, obs, j);
      var o := obs[j];
      if o.view >= env.frm {
        ghost var cur := PointObsC(env, x, obs[..j]);
        var s := WritePointPair(error, e, env, x, o);
        AppendAssoc(pre, cur.res, PointPair(env, x, o).res);
        sq := sq + [s];
        e := e + 2;
      }
      j := j + 1;
    }
    assert obs[..|obs|] == obs;
  }

  lemma PointsWhole(env: Env, items: seq<PtItem>)
    requires PtItemsOk(env, items)
    ensures PointsC(env, items[..|items|]) == PointsC(env, items)
  {
    assert items[..|items|] == items;
  }

  lemma LinesWhole(env: Env, items: seq<LnItem>)
    requires LnItemsOk(env, items)
    ensures LinesC(env, items[..|items|]) == LinesC(env, items)
  {
    assert items[..|items|] == items;
  }

  /** One more point of a phase: its residuals follow those of the points before it. */
  method PointItemStep(error: array<real>, e: nat, ghost pre: seq<real>, env: Env, ghost items: seq<PtItem>, i: nat,
                       x: Vec3, obs: seq<Obs>, sq: seq<real>)
    returns (e': nat, sq': seq<real>)
    requires PtItemsOk(env, items) && i < |items| && items[i] == PtItem(x, obs)
    requires |pre| + |PointsC(env, items).res| <= error.Length
    requires e <= error.Length && PointsDone(env, items, i, pre, e, error[..e], sq)
    modifies error
    ensures e' <= error.Length && PointsDone(env, items, i + 1, pre, e', error[..e'], sq')
  {
    PointsStep(env, items, i);
    PointsPrefix(env, items, i + 1);
    ghost var cur := PointsC(env, items[..i]);
    var s;
    e', s := PointObsLoop(error, e, x, obs, env);
    AppendAssoc(pre, cur.res, PointObsC(env, x, obs).res);
    sq' := sq + s;
  }

  /** After i points of a phase: the error vector up to `e` is `pre` followed by their
      residuals, and `sq` holds their squared terms. */
  ghost predicate PointsDone(env: Env, items: seq<PtItem>, i: nat, pre: seq<real>, e: nat, w: seq<real>, sq: seq<real>)
  {
    && i <= |items| && PtItemsOk(env, items[..i])
    && e == |pre| + |PointsC(env, items[..i]).res| && w == pre + PointsC(env, items[..i]).res
    && sq == PointsC(env, items[..i]).sq
  }

  /** The loop over the optimised points, reading each position at `pidx`. */
  method OptPointsPhase(error: array<real>, e0: nat, p: seq<real>, pidx0: nat, L: Layout, kps: seq<KeyPoint3d>, env: Env)
    returns (e: nat, pidx: nat, sq: seq<real>)
    requires |p| == NumPara(L) && pidx0 == PointBase(L)
    requires forall k :: 0 <= k < |L.kOpt| ==> L.kOpt[k] < |kps|
    requires PtItemsOk(env, OptPointItems(p, L, kps))
    requires e0 + |PointsC(env, OptPointItems(p, L, kps)).res| <= error.Length
    modifies error
    ensures var c := PointsC(env, OptPointItems(p, L, kps));
            e == e0 + |c.res| && error[..e] == old(error[..e0]) + c.res && sq == c.sq
    ensures pidx == VpBase(L)
  {
    ghost var items := OptPointItems(p, L, kps);
    ghost var pre := error[..e0];
    e, pidx, sq := e0, pidx0, [];
    var i := 0;
    assert items[..0] == [];
    while i < |L.kOpt|
      invariant 0 <= i <= |L.kOpt| && pidx == PointBase(L) + 3 * i
      invariant e <= error.Length && PointsDone(env, items, i, pre, e, error[..e], sq)
    {
      DecodedPointAt(p, L, i, pidx);
      var x := Vec3(p[pidx], p[pidx + 1], p[pidx + 2]);
      e, sq := PointItemStep(error, e, pre, env, items, i, x, kps[L.kOpt[i]].obs, sq);
      pidx := pidx + 3;
      i := i + 1;
    }
    PointsWhole(env, items);
  }

  /** The loop over the reproject-only points, projecting each stored position. */
  method RpjPointsPhase(error: array<real>, e0: nat, L: Layout, kps: seq<KeyPoint3d>, env: Env)
    returns (e: nat, sq: seq<real>)
    requires forall k :: 0 <= k < |L.kRpj| ==> L.kRpj[k] < |kps|
    requires PtItemsOk(env, RpjPointItems(L, kps))
    requires e0 + |PointsC(env, RpjPointItems(L, kps)).res| <= error.Length
    modifies error
    ensures var c := PointsC(env, RpjPointItems(L, kps));
            e == e0 + |c.res| && error[..e] == old(error[..e0]) + c.res && sq == c.sq
  {
    ghost var items := RpjPointItems(L, kps);
    ghost var pre := error[..e0];
    e, sq := e0, [];
    var i := 0;
    assert items[..0] == [];
    while i < |L.kRpj|
      invariant 0 <= i <= |L.kRpj|
      invariant e <= error.Length && PointsDone(env, items, i, pre, e, error[..e], sq)
    {
      var kp := kps[L.kRpj[i]];
      e, sq := PointItemStep(error, e, pre, env, items, i, kp.pos, kp.obs, sq);
      i := i + 1;
    }
    PointsWhole(env, items);
  }

  /** One segment: its robustified area residual is written at `e` and copied to `e + 1`;
      the slots before `e` stay. */
  method WriteSegment(error: array<real>, e: nat, leq: Vec3, ep1: Point2, ep2: Point2, geo: LmGeometry) returns (v: real)
    requires e + 2 <= error.Length
    modifies error
    ensures v == geo.robust(geo.segArea(leq, ep1, ep2), LineKernel)
    ensures error[..e + 2] == old(error[..e]) + [v, v]
  {
    error[e] := geo.segArea(leq, ep1, ep2);
    error[e] := geo.robust(error[e], LineKernel);
    error[e + 1] := error[e];
    v := error[e];
    assert error[..e + 2] == old(error[..e]) + [error[e], error[e + 1]];
  }

  /** The innermost loop: one residual per segment (k = 0, 2, 4, ...), copied into
      the next slot. */
  method SegLoop(error: array<real>, e0: nat, leq: Vec3, ends: seq<Point2>, geo: LmGeometry) returns (e: nat, sq: seq<real>)
    requires |ends| % 2 == 0 && e0 + |ends| <= error.Length
    modifies error
    ensures e == e0 + |ends|
    ensures error[..e] == old(error[..e0]) + SegC(geo, leq, ends, |ends| / 2).res
    ensures sq == SegC(geo, leq, ends, |ends| / 2).sq
  {
    ghost var pre := error[..e0];
    ghost var n: nat := |ends| / 2;
    assert |ends| == 2 * n;
    e, sq := e0, [];
    var k := 0;
    ghost var m: nat := 0;
    while k < |ends|
      invariant 0 <= k <= |ends| && m <= n && k == 2 * m && e == e0 + k && e <= error.Length
      invariant SegsDone(geo, leq, ends, m, pre, error[..e], sq)
    {
      sq := SegStep(error, e, pre, leq, ends, geo, k, m, sq);
      e := e + 2;
      k := k + 2;
      m := m + 1;
    }
  }

  /** After m segments: the error vector is `pre` followed by their residuals and `sq`
      holds their squares. */
  ghost predicate SegsDone(geo: LmGeometry, leq: Vec3, ends: seq<Point2>, m: nat, pre: seq<real>, w: seq<real>, sq: seq<real>)
  {
    2 * m <= |ends| && w == pre + SegC(geo, leq, ends, m).res && sq == SegC(geo, leq, ends, m).sq
  }

  /** One segment of the innermost loop. */
  method SegStep(error: array<real>, e: nat, ghost pre: seq<real>, leq: Vec3, ends: seq<Point2>, geo: LmGeometry,
                 k: nat, ghost m: nat, sq: seq<real>)
    returns (sq': seq<real>)
    requires k == 2 * m && k + 2 <= |ends| && e == |pre| + k && e + 2 <= error.Length
    requires SegsDone(geo, leq, ends, m, pre, error[..e], sq)
    modifies error
    ensures SegsDone(geo, leq, ends, m + 1, pre, error[..e + 2], sq')
  {
    ghost var cur := SegC(geo, leq, ends, m);
    var v := WriteSegment(error, e, leq, ends[k], ends[k + 1], geo);
    SegCStep(geo, leq, ends, m + 1);
    AppendAssoc(pre, cur.res, [v, v]);
    sq' := sq + [Sq(v), Sq(v)];
  }

  lemma LineObsStep(env: Env, src: LineSource, obs: seq<Obs>, j: nat)
    requires |env.ps| == |env.views| && LineObsValid(env.views, obs) && j < |obs|
    ensures LineObsValid(env.views, obs[..j]) && LineObsValid(env.views, obs[..j + 1])
    ensures |LineObsC(env, src, obs[..j + 1]).res| <= |LineObsC(env, src, obs).res|
    ensures LineObsC(env, src, obs[..j + 1]) ==
              if obs[j].view >= env.frm
              then Join(LineObsC(env, src, obs[..j]),
                        SegC(env.geo, LineEq(env.geo, src, env.ps[obs[j].view]), Endpoints(env, obs[j]), |Endpoints(env, obs[j])| / 2))
              else LineObsC(env, src, obs[..j])
  {
    assert obs[..j + 1][..j] == obs[..j];
    LineObsPrefix(env, src, obs, j + 1);
  }

  /** After `j` observations of a line: `w` (the array's prefix) is `pre` followed by
      their residuals, and `sq` collects their squared segment lengths. */
  ghost predicate ObsDone(env: Env, src: LineSource, obs: seq<Obs>, j: nat, pre: seq<real>, e: nat, w: seq<real>, sq: seq<real>)
    requires |env.ps| == |env.views|
  {
    && j <= |obs| && LineObsValid(env.views, obs[..j])
    && e == |pre| + |LineObsC(env, src, obs[..j]).res| && w == pre + LineObsC(env, src, obs[..j]).res
    && sq == LineObsC(env, src, obs[..j]).sq
  }

  /** One more observation of a line: the segments of its measured line, when its view
      is in the window, follow the residuals written so far. */
  method LineObsSegments(error: array<real>, e: nat, ghost pre: seq<real>, src: LineSource, obs: seq<Obs>, j: nat, env: Env,
                         sq: seq<real>)
    returns (e': nat, sq': seq<real>)
    requires |env.ps| == |env.views| && LineObsValid(env.views, obs) && SegmentsPaired(env.views) && j < |obs|
    requires |pre| + |LineObsC(env, src, obs).res| <= error.Length
    requires e <= error.Length && ObsDone(env, src, obs, j, pre, e, error[..e], sq)
    modifies error
    ensures e' <= error.Length && ObsDone(env, src, obs, j + 1, pre, e', error[..e'], sq')
  {
    LineObsStep(env, src, obs, j);
    var o := obs[j];
    if o.view >= env.frm {
      var leq := LineEq(env.geo, src, env.ps[o.view]);
      var ends := env.views[o.view].idealLines[o.local].lsEndpoints;
      SegsCount(env, o);
      ghost var cur := LineObsC(env, src, obs[..j]);
      var s;
      e', s := SegLoop(error, e, leq, ends, env.geo);
      AppendAssoc(pre, cur.res, SegC(env.geo, leq, ends, |ends| / 2).res);
      sq' := sq + s;
    } else {
      e', sq' := e, sq;
    }
  }

  /** The loop over one line's observations. */
  method LineObsLoop(error: array<real>, e0: nat, src: LineSource, obs: seq<Obs>, env: Env) returns (e: nat, sq: seq<real>)
    requires |env.ps| == |env.views| && LineObsValid(env.views, obs) && SegmentsPaired(env.views)
    requires e0 + |LineObsC(env, src, obs).res| <= error.Length
    modifies error
    ensures e == e0 + |LineObsC(env, src, obs).res|
    ensures error[..e] == old(error[..e0]) + LineObsC(env, src, obs).res
    ensures sq == LineObsC(env, src, obs).sq
  {
    ghost var pre := error[..e0];
    e, sq := e0, [];
    assert obs[..0] == [];
    var j := 0;
    while j < |obs|
      invariant e <= error.Length && ObsDone(env, src, obs, j, pre, e, error[..e], sq)
    {
      e, sq := LineObsSegments(error, e, pre, src, obs, j, env, sq);
      j := j + 1;
    }
    assert obs[..|obs|] == obs;
  }

  /** One more line of a phase: its residuals follow those of the lines before it. */
  method LineItemStep(error: array<real>, e: nat, ghost pre: seq<real>, env: Env, ghost items: seq<LnItem>, i: nat,
                      src: LineSource, obs: seq<Obs>, sq: seq<real>)
    returns (e': nat, sq': seq<real>)
    requires LnItemsOk(env, items) && SegmentsPaired(env.views) && i < |items| && items[i] == LnItem(src, obs)
    requires |pre| + |LinesC(env, items).res| <= error.Length
    requires e <= error.Length && LinesDone(env, items, i, pre, e, error[..e], sq)
    modifies error
    ensures e' <= error.Length && LinesDone(env, items, i + 1, pre, e', error[..e'], sq')
  {
    LinesStep(env, items, i);
    LinesPrefix(env, items, i + 1);
    ghost var cur := LinesC(env, items[..i]);
    var s;
    e', s := LineObsLoop(error, e, src, obs, env);
    AppendAssoc(pre, cur.res, LineObsC(env, src, obs).res);
    sq' := sq + s;
  }

  /** Optimised line i reads its mid-point at `o` and its direction from the decoded vanishing points. */
  lemma OptLineItemAt(p: seq<real>, L: Layout, ils: seq<IdealLine3d>, vps: seq<Vec3>, i: nat, o: nat)
    requires |p| == NumPara(L) && i < |L.lOpt| && o == LineBase(L) + 3 * i
    requires forall k :: 0 <= k < |L.lOpt| ==> L.lOpt[k] < |ils| && 0 <= ils[L.lOpt[k]].vpGid < L.numVp
    requires |vps| == L.numVp && forall k :: 0 <= k < L.numVp ==> vps[k] == DecodedVp(p, L, k)
    ensures o + 2 < |p| && L.lOpt[i] < |ils| && 0 <= ils[L.lOpt[i]].vpGid < |vps|
    ensures OptLineItems(p, L, ils)[i] ==
              LnItem(Through(Vec3(p[o], p[o + 1], p[o + 2]), vps[ils[L.lOpt[i]].vpGid]), ils[L.lOpt[i]].obs)
  {
    DecodedLineAt(p, L, i, o);
  }

  /** One optimised line: its mid-point is read at `pidx`, its direction is the decoded
      vanishing point of its `vpGid`. */
  method OptLineStep(error: array<real>, e: nat, ghost pre: seq<real>, p: seq<real>, pidx: nat, L: Layout,
                     ils: seq<IdealLine3d>, vps: seq<Vec3>, env: Env, ghost items: seq<LnItem>, i: nat, sq: seq<real>)
    returns (e': nat, sq': seq<real>)
    requires |p| == NumPara(L) && i < |L.lOpt| && pidx == LineBase(L) + 3 * i && SegmentsPaired(env.views)
    requires forall k :: 0 <= k < |L.lOpt| ==> L.lOpt[k] < |ils| && 0 <= ils[L.lOpt[k]].vpGid < L.numVp
    requires |vps| == L.numVp && forall k :: 0 <= k < L.numVp ==> vps[k] == DecodedVp(p, L, k)
    requires items == OptLineItems(p, L, ils) && LnItemsOk(env, items)
    requires |pre| + |LinesC(env, items).res| <= error.Length
    requires e <= error.Length && LinesDone(env, items, i, pre, e, error[..e], sq)
    modifies error
    ensures e' <= error.Length && LinesDone(env, items, i + 1, pre, e', error[..e'], sq')
  {
    OptLineItemAt(p, L, ils, vps, i, pidx);
    var il := ils[L.lOpt[i]];
    var e1 := Vec3(p[pidx], p[pidx + 1], p[pidx + 2]);
    var e2 := vps[il.vpGid];
    e', sq' := LineItemStep(error, e, pre, env, items, i, Through(e1, e2), il.obs, sq);
  }

  /** After i lines of a phase: the error vector up to `e` is `pre` followed by their
      residuals, and `sq` holds their squared terms. */
  ghost predicate LinesDone(env: Env, items: seq<LnItem>, i: nat, pre: seq<real>, e: nat, w: seq<real>, sq: seq<real>)
  {
    && i <= |items| && LnItemsOk(env, items[..i])
    && e == |pre| + |LinesC(env, items[..i]).res| && w == pre + LinesC(env, items[..i]).res
    && sq == LinesC(env, items[..i]).sq
  }

  /** The loop over the optimised lines: the mid-point is read at `pidx`, the direction
      is the decoded vanishing point of the line's `vpGid`. */
  method OptLinesPhase(error: array<real>, e0: nat, p: seq<real>, pidx0: nat, L: Layout, ils: seq<IdealLine3d>,
                       vps: seq<Vec3>, env: Env)
    returns (e: nat, pidx: nat, sq: seq<real>)
    requires |p| == NumPara(L) && pidx0 == LineBase(L) && SegmentsPaired(env.views)
    requires forall k :: 0 <= k < |L.lOpt| ==> L.lOpt[k] < |ils| && 0 <= ils[L.lOpt[k]].vpGid < L.numVp
    requires |vps| == L.numVp && forall k :: 0 <= k < L.numVp ==> vps[k] == DecodedVp(p, L, k)
    requires LnItemsOk(env, OptLineItems(p, L, ils))
    requires e0 + |LinesC(env, OptLineItems(p, L, ils)).res| <= error.Length
    modifies error
    ensures var c := LinesC(env, OptLineItems(p, L, ils));
            e == e0 + |c.res| && error[..e] == old(error[..e0]) + c.res && sq == c.sq
    ensures pidx == NumPara(L)
  {
    ghost var items := OptLineItems(p, L, ils);
    ghost var pre := error[..e0];
    e, pidx, sq := e0, pidx0, [];
    var i := 0;
    assert items[..0] == [];
    while i < |L.lOpt|
      invariant 0 <= i <= |L.lOpt| && pidx == LineBase(L) + 3 * i
      invariant e <= error.Length && LinesDone(env, items, i, pre, e, error[..e], sq)
    {
      e, sq := OptLineStep(error, e, pre, p, pidx, L, ils, vps, env, items, i, sq);
      pidx := pidx + 3;
      i := i + 1;
    }
    LinesWhole(env, items);
  }

  /** The loop over the reproject-only lines, each projected as stored. */
  method RpjLinesPhase(error: array<real>, e0: nat, L: Layout, ils: seq<IdealLine3d>, env: Env)
    returns (e: nat, sq: seq<real>)
    requires SegmentsPaired(env.views)
    requires forall k :: 0 <= k < |L.lRpj| ==> L.lRpj[k] < |ils|
    requires LnItemsOk(env, RpjLineItems(L, ils))
    requires e0 + |LinesC(env, RpjLineItems(L, ils)).res| <= error.Length
    modifies error
    ensures var c := LinesC(env, RpjLineItems(L, ils));
            e == e0 + |c.res| && error[..e] == old(error[..e0]) + c.res && sq == c.sq
  {
    ghost var items := RpjLineItems(L, ils);
    ghost var pre := error[..e0];
    e, sq := e0, [];
    var i := 0;
    assert items[..0] == [];
    while i < |L.lRpj|
      invariant 0 <= i <= |L.lRpj|
      invariant e <= error.Length && LinesDone(env, items, i, pre, e, error[..e], sq)
    {
      var il := ils[L.lRpj[i]];
      e, sq := LineItemStep(error, e, pre, env, items, i, Reprojected(il), il.obs, sq);
      i := i + 1;
    }
    LinesWhole(env, items);
  }

  lemma TotalsFromSums(pv: seq<real>, lv: seq<real>, cp: real, cl: real, pc: Contrib, lc: Contrib)
    requires pv == pc.sq && lv == lc.sq && cp == Sum(pv) && cl == Sum(lv)
    ensures Totals(cp, cl, cp + cl,
                   if |pv| == 0 then None else Some(cp / (|pv| as real)),
                   if |lv| / 2 == 0 then None else Some(cl / ((|lv| / 2) as real))) == TotalsOf(pc, lc)
  {
  }

  method SumLoop(xs: seq<real>) returns (s: real)
    ensures s == Sum(xs)
  {
    s := 0.0;
    var i := 0;
    while i < |xs|
      invariant 0 <= i <= |xs| && s == Sum(xs[..i])
    {
      assert xs[..i + 1][..i] == xs[..i];
      s := s + xs[i];
      i := i + 1;
    }
    assert xs[..|xs|] == xs;
  }

  /** The two point loops: optimised points, then reproject-only points. */
  method PointResiduals(p: seq<real>, pidx0: nat, error: array<real>, L: Layout, st: MapState, env: Env)
    returns (e: nat, pidx: nat, ptVec: seq<real>)
    requires CostReady(st, L) && |p| == NumPara(L) && pidx0 == PointBase(L)
    requires env.views == st.views && |env.ps| == |env.views|
    requires |PointContrib(st, L, p, env).res| <= error.Length
    modifies error
    ensures e == |PointContrib(st, L, p, env).res| && pidx == VpBase(L)
    ensures error[..e] == PointContrib(st, L, p, env).res && ptVec == PointContrib(st, L, p, env).sq
  {
    ItemsOk(st, L, p, env);
    ghost var A := PointsC(env, OptPointItems(p, L, st.keyPoints));
    var a, b: seq<real>;
    e, pidx, a := OptPointsPhase(error, 0, p, pidx0, L, st.keyPoints, env);
    assert error[..e] == A.res;
    e, b := RpjPointsPhase(error, e, L, st.keyPoints, env);
    ptVec := a + b;
  }

  /** The vanishing-point decoding and the two line loops, after the point residuals. */
  method LineResiduals(p: seq<real>, pidx0: nat, error: array<real>, e0: nat, L: Layout, st: MapState, env: Env)
    returns (e: nat, lnVec: seq<real>)
    requires CostReady(st, L) && |p| == NumPara(L) && pidx0 == VpBase(L)
    requires env.views == st.views && |env.ps| == |env.views|
    requires e0 + |LineContrib(st, L, p, env).res| <= error.Length
    modifies error
    ensures e == e0 + |LineContrib(st, L, p, env).res|
    ensures error[..e] == old(error[..e0]) + LineContrib(st, L, p, env).res && lnVec == LineContrib(st, L, p, env).sq
  {
    ItemsOk(st, L, p, env);
    ghost var pre := error[..e0];
    ghost var C := LinesC(env, OptLineItems(p, L, st.idealLines));
    ghost var D := LinesC(env, RpjLineItems(L, st.idealLines));
    var vps, pidx := DecodeVps(p, pidx0, L);
    var c, d: seq<real>;
    e, pidx, c := OptLinesPhase(error, e0, p, pidx, L, st.idealLines, vps, env);
    e, d := RpjLinesPhase(error, e, L, st.idealLines, env);
    AppendAssoc(pre, C.res, D.res);
    lnVec := c + d;
  }

  /** `costFun_BA_PtLnVp`: fills the whole residual buffer of numMeas entries and
      returns the totals it leaves in the shared data. */
  method CostFun(p: seq<real>, error: array<real>, L: Layout, st: MapState, prev: seq<seq<real>>,
                 K: Intrinsics, geo: LmGeometry) returns (tot: Totals)
    requires CostReady(st, L) && |p| == NumPara(L) && |prev| == L.fp - L.frm
    requires error.Length == NumMeas(st, L)
    modifies error
    ensures error[..] == CostSpec(st, L, p, prev, K, geo).error
    ensures tot == CostSpec(st, L, p, prev, K, geo).totals
  {
    var ps, pidx := DecodePoses(p, L, prev, K, geo);
    var env := Env(st.views, L.frm, ps, geo);
    assert env == EnvOf(st, L, p, prev, K, geo);
    ResidualCount(st, L, p, env);
    var eidx, ptVec;
    eidx, pidx, ptVec := PointResiduals(p, pidx, error, L, st, env);
    var lnVec;
    eidx, lnVec := LineResiduals(p, pidx, error, eidx, L, st, env);
    assert error[..eidx] == error[..];
    var costPt := SumLoop(ptVec);
    var costLn := SumLoop(lnVec);
    tot := Totals(costPt, costLn, costPt + costLn,
                  if |ptVec| == 0 then None else Some(costPt / (|ptVec| as real)),
                  if |lnVec| / 2 == 0 then None else Some(costLn / ((|lnVec| / 2) as real)));
    TotalsFromSums(ptVec, lnVec, costPt, costLn, PointContrib(st, L, p, env), LineContrib(st, L, p, env));
  }

  // ---------------------------------------------------------- properties

  lemma {:induction false} PointObsPaired(env: Env, x: Vec3, obs: seq<Obs>)
    requires |env.ps| == |env.views| && PointObsValid(env.views, obs)
    ensures PointPaired(PointObsC(env, x, obs))
    decreases |obs|
  {
    if obs != [] {
      var o := obs[|obs| - 1];
      PointObsPaired(env, x, obs[..|obs| - 1]);
      if o.view >= env.frm {
        JoinPointPaired(PointObsC(env, x, obs[..|obs| - 1]), PointPair(env, x, o));
      }
    }
  }

  /** Every `err_pt_vec` entry is the squared norm of the residual pair written for it. */
  lemma {:induction false} PointsPaired(env: Env, items: seq<PtItem>)
    requires PtItemsOk(env, items)
    ensures PointPaired(PointsC(env, items))
    decreases |items|
  {
    if items != [] {
      var n := |items| - 1;
      PointsPaired(env, items[..n]);
      PointObsPaired(env, items[n].pos, items[n].obs);
      JoinPointPaired(PointsC(env, items[..n]), PointObsC(env, items[n].pos, items[n].obs));
    }
  }

  lemma {:induction false} SegSquared(geo: LmGeometry, leq: Vec3, ends: seq<Point2>, m: nat)
    requires 2 * m <= |ends|
    ensures LineSquared(SegC(geo, leq, ends, m))
    decreases m
  {
    if m > 0 {
      var e := geo.robust(geo.segArea(leq, ends[2 * m - 2], ends[2 * m - 1]), LineKernel);
      SegSquared(geo, leq, ends, m - 1);
      JoinLineSquared(SegC(geo, leq, ends, m - 1), Contrib([e, e], [Sq(e), Sq(e)]));
    }
  }

  lemma {:induction false} LineObsSquared(env: Env, src: LineSource, obs: seq<Obs>)
    requires |env.ps| == |env.views| && LineObsValid(env.views, obs)
    ensures LineSquared(LineObsC(env, src, obs))
    decreases |obs|
  {
    if obs != [] {
      var o := obs[|obs| - 1];
      LineObsSquared(env, src, obs[..|obs| - 1]);
      if o.view >= env.frm {
        var ends := Endpoints(env, o);
        var leq := LineEq(env.geo, src, env.ps[o.view]);
        SegSquared(env.geo, leq, ends, |ends| / 2);
        JoinLineSquared(LineObsC(env, src, obs[..|obs| - 1]), SegC(env.geo, leq, ends, |ends| / 2));
      }
    }
  }

  /** Every `err_ln_vec` entry is the square of the residual written beside it. */
  lemma {:induction false} LinesSquared(env: Env, items: seq<LnItem>)
    requires LnItemsOk(env, items)
    ensures LineSquared(LinesC(env, items))
    decreases |items|
  {
    if items != [] {
      var n := |items| - 1;
      LinesSquared(env, items[..n]);
      LineObsSquared(env, items[n].src, items[n].obs);
      JoinLineSquared(LinesC(env, items[..n]), LineObsC(env, items[n].src, items[n].obs));
    }
  }

  lemma PointSumNonNegative(c: Contrib)
    requires PointPaired(c)
    ensures Sum(c.sq) >= 0.0
  {
    assert forall k :: 0 <= k < |c.sq| ==> c.sq[k] == Sq(c.res[2 * k]) + Sq(c.res[2 * k + 1]);
    SumNonNegative(c.sq);
  }

  lemma LineSumNonNegative(c: Contrib)
    requires LineSquared(c)
    ensures Sum(c.sq) >= 0.0
  {
    assert forall k :: 0 <= k < |c.sq| ==> c.sq[k] == Sq(c.res[k]);
    SumNonNegative(c.sq);
  }

  /** The residual buffer of one evaluation is exactly numMeas long; the squares pushed
      are those of the residuals written (pairs for points, single entries for lines). */
  lemma CostShape(st: MapState, L: Layout, p: seq<real>, prev: seq<seq<real>>, K: Intrinsics, geo: LmGeometry)
    requires CostReady(st, L) && |p| == NumPara(L) && |prev| == L.fp - L.frm
    ensures |CostSpec(st, L, p, prev, K, geo).error| == NumMeas(st, L)
    ensures var env := EnvOf(st, L, p, prev, K, geo);
            PointPaired(PointContrib(st, L, p, env)) && LineSquared(LineContrib(st, L, p, env))
    ensures var env := EnvOf(st, L, p, prev, K, geo);
            |PointContrib(st, L, p, env).res| == PtMeas(st, L)
    ensures var env := EnvOf(st, L, p, prev, K, geo);
            |LineContrib(st, L, p, env).res| == LnMeas(st, L)
  {
    var env := EnvOf(st, L, p, prev, K, geo);
    ItemsOk(st, L, p, env);
    PointResidualCount(st, L, p, env);
    LineResidualCount(st, L, p, env);
    var A := PointsC(env, OptPointItems(p, L, st.keyPoints));
    var B := PointsC(env, RpjPointItems(L, st.keyPoints));
    var C := LinesC(env, OptLineItems(p, L, st.idealLines));
    var D := LinesC(env, RpjLineItems(L, st.idealLines));
    PointsPaired(env, OptPointItems(p, L, st.keyPoints));
    PointsPaired(env, RpjPointItems(L, st.keyPoints));
    JoinPointPaired(A, B);
    LinesSquared(env, OptLineItems(p, L, st.idealLines));
    LinesSquared(env, RpjLineItems(L, st.idealLines));
    JoinLineSquared(C, D);
  }

  /** What the totals mean, given nPt point and nLn line measurements: `err_all` is
      the point total plus the line total, both are non-negative; the point mean is
      taken over the nPt / 2 point observations and exists iff there is one; the line
      mean is taken over the nLn / 2 segments and exists iff there is one. */
  predicate TotalsSound(t: Totals, nPt: nat, nLn: nat)
  {
    && nPt % 2 == 0 && nLn % 2 == 0
    && t.errAll == t.errPt + t.errLn && t.errPt >= 0.0 && t.errLn >= 0.0
    && (t.errPtMean.Some? <==> nPt > 0)
    && (t.errPtMean.Some? ==> t.errPtMean.value == t.errPt / ((nPt / 2) as real))
    && (t.errLnMean.Some? <==> nLn > 0)
    && (t.errLnMean.Some? ==> t.errLnMean.value == t.errLn / ((nLn / 2) as real))
  }

  lemma TotalsOfMeaning(pc: Contrib, lc: Contrib, nPt: nat, nLn: nat)
    requires PointPaired(pc) && LineSquared(lc) && |pc.res| == nPt && |lc.res| == nLn
    ensures TotalsSound(TotalsOf(pc, lc), nPt, nLn)
  {
    PointSumNonNegative(pc);
    LineSumNonNegative(lc);
  }

  /** The totals of every evaluation are sound for the window's measurement counts. */
  lemma TotalsMeaning(st: MapState, L: Layout, p: seq<real>, prev: seq<seq<real>>, K: Intrinsics, geo: LmGeometry)
    requires CostReady(st, L) && |p| == NumPara(L) && |prev| == L.fp - L.frm
    ensures TotalsSound(CostSpec(st, L, p, prev, K, geo).totals, PtMeas(st, L), LnMeas(st, L))
  {
    var env := EnvOf(st, L, p, prev, K, geo);
    CostShape(st, L, p, prev, K, geo);
    TotalsOfMeaning(PointContrib(st, L, p, env), LineContrib(st, L, p, env), PtMeas(st, L), LnMeas(st, L));
  }

  /** The first evaluation, at the vector built from the map, projects every optimised
      point from its stored position and every optimised line through its stored
      mid-point along its stored vanishing point. */
  lemma InitialItems(st: MapState, geo: LmGeometry)
    requires CostReady(st, LayoutOf(st))
    ensures |ParaVec(st, geo)| == NumPara(LayoutOf(st))
    ensures var L := LayoutOf(st);
            forall k :: 0 <= k < |L.kOpt| ==>
              OptPointItems(ParaVec(st, geo), L, st.keyPoints)[k] == PtItem(st.keyPoints[L.kOpt[k]].pos, st.keyPoints[L.kOpt[k]].obs)
    ensures var L := LayoutOf(st);
            forall k :: 0 <= k < |L.lOpt| ==>
              OptLineItems(ParaVec(st, geo), L, st.idealLines)[k].src ==
              Through(st.idealLines[L.lOpt[k]].midpt, st.vanishingPoints[st.idealLines[L.lOpt[k]].vpGid].pos)
  {
    var L := LayoutOf(st);
    ParaVecLength(st, geo);
    forall k | 0 <= k < |L.kOpt|
      ensures DecodedPoint(ParaVec(st, geo), L, k) == st.keyPoints[L.kOpt[k]].pos
    {
      DecodeEncodePoint(st, geo, k);
    }
    forall k | 0 <= k < |L.lOpt|
      ensures DecodedLine(ParaVec(st, geo), L, k) == st.idealLines[L.lOpt[k]].midpt
      ensures DecodedVp(ParaVec(st, geo), L, st.idealLines[L.lOpt[k]].vpGid) ==
              st.vanishingPoints[st.idealLines[L.lOpt[k]].vpGid].pos
    {
      DecodeEncodeLine(st, geo, k);
      DecodeEncodeVp(st, geo, st.idealLines[L.lOpt[k]].vpGid);
    }
  }
}
