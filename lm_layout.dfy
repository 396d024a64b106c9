/** The parameter and measurement layout of the Levenberg-Marquardt back end
    (`Mfg::adjustBundle_PtLnVp`).  The parameter vector holds, in order, the poses
    of views [frontPosIdx, n) (a quaternion and a translation, the translation of
    view 1 as two angles of a unit vector), the optimised key points, every
    vanishing point, and the mid-points of the optimised ideal lines.  The cost
    function and the write-back read the vector back at the same offsets. */
module LmLayout {
  import opened SeqUtil
  import opened Entities
  import opened Windows
  import G2oBuild

  datatype Quat = Quat(w: real, x: real, y: real, z: real)

  /** A projection matrix slot: unset, or K [R | t] row-major. */
  datatype Proj = Unset | Camera(m: seq<real>)

  /** The numerics of this back end, which are not part of the model. */
  datatype LmGeometry = LmGeometry(
    toQuat: Rotation -> Quat,                      // r2q
    fromQuat: Quat -> Rotation,                    // normalise, then the rotation matrix
    toAngles: Vec3 -> (real, real),                // unitVec2angle
    fromAngles: (real, real) -> Vec3,              // angle2unitVec
    camera: (Intrinsics, Rotation, Vec3) -> seq<real>,   // K [R | t]
    ptOffset: (Proj, Vec3, Point2) -> (real, real),      // projected minus observed pixel
    lineThrough: (Proj, Vec3, Vec3) -> Vec3,       // image line through a point and a direction
    projectLine: (IdealLine3d, Proj) -> Vec3,      // image of a 3D line
    segArea: (Vec3, Point2, Point2) -> real,       // segment-to-line area over twice the segment length
    robust: (real, real) -> real,                  // sqrt(pseudoHuber(x, kernel))
    vpDirection: Vec3 -> Vec3,                     // a vanishing point's vector as a direction
    projectToLine: (IdealLine3d, Vec3) -> Vec3)    // projectPt3d2Ln3d

  // ------------------------------------------------------------------ poses

  /** Slots of one pose: 4 for the quaternion, then 2 angles for view 1 (its
      translation is a unit vector fixing the scale) and 3 coordinates otherwise. */
  function PoseSlots(i: int): nat { if i == 1 then 6 else 7 }

  /** Slots taken by the poses of views [fp, hi). */
  function PoseSpan(fp: int, hi: int): nat
    decreases hi - fp
  {
    if hi <= fp then 0 else PoseSpan(fp, hi - 1) + PoseSlots(hi - 1)
  }

  lemma {:induction false} PoseSpanClosed(fp: int, hi: int)
    requires fp <= hi
    ensures PoseSpan(fp, hi) == 7 * (hi - fp) - (if fp <= 1 < hi then 1 else 0)
    decreases hi - fp
  {
    if hi > fp {
      PoseSpanClosed(fp, hi - 1);
    }
  }

  lemma {:induction false} PoseSpanMono(fp: int, i: int, hi: int)
    requires fp <= i <= hi
    ensures PoseSpan(fp, i) + (if i < hi then PoseSlots(i) else 0) <= PoseSpan(fp, hi)
    decreases hi - i
  {
    if i < hi - 1 {
      PoseSpanMono(fp, i, hi - 1);
    }
  }

  function PoseBlock(v: View, i: int, geo: LmGeometry): (r: seq<real>)
    ensures |r| == PoseSlots(i)
  {
    var q := geo.toQuat(v.r);
    [q.w, q.x, q.y, q.z] +
    (if i == 1 then [geo.toAngles(v.t).0, geo.toAngles(v.t).1] else [v.t.x, v.t.y, v.t.z])
  }

  /** The pose parameters of views [fp, hi), in view order. */
  function PoseParas(views: seq<View>, fp: int, hi: int, geo: LmGeometry): seq<real>
    requires 0 <= fp && hi <= |views|
    decreases hi - fp
  {
    if hi <= fp then [] else PoseParas(views, fp, hi - 1, geo) + PoseBlock(views[hi - 1], hi - 1, geo)
  }

  /** View i's pose occupies the slots [PoseSpan(fp, i), PoseSpan(fp, i + 1)). */
  lemma {:induction false} PoseParasLayout(views: seq<View>, fp: int, hi: int, geo: LmGeometry, i: int)
    requires 0 <= fp <= i < hi <= |views|
    ensures |PoseParas(views, fp, hi, geo)| == PoseSpan(fp, hi)
    ensures PoseSpan(fp, i) + PoseSlots(i) <= PoseSpan(fp, hi)
    ensures PoseParas(views, fp, hi, geo)[PoseSpan(fp, i)..PoseSpan(fp, i) + PoseSlots(i)] == PoseBlock(views[i], i, geo)
    decreases hi - fp
  {
    PoseParasLength(views, fp, hi, geo);
    if i < hi - 1 {
      PoseParasLayout(views, fp, hi - 1, geo, i);
      var pre := PoseParas(views, fp, hi - 1, geo);
      assert PoseParas(views, fp, hi, geo)[..|pre|] == pre;
    } else {
      PoseParasLength(views, fp, hi - 1, geo);
    }
  }

  lemma {:induction false} PoseParasLength(views: seq<View>, fp: int, hi: int, geo: LmGeometry)
    requires 0 <= fp && hi <= |views|
    ensures |PoseParas(views, fp, hi, geo)| == PoseSpan(fp, hi)
    decreases hi - fp
  {
    if hi > fp {
      PoseParasLength(views, fp, hi - 1, geo);
    }
  }

  // ------------------------------------------------------- three-slot blocks

  /** Coordinates x, y, z of each vector, in order. */
  function Triples(xs: seq<Vec3>): seq<real>
    decreases |xs|
  {
    if xs == [] then [] else
      var v := xs[|xs| - 1];
      Triples(xs[..|xs| - 1]) + [v.x, v.y, v.z]
  }

  function Vec3At(p: seq<real>, o: nat): Vec3
    requires o + 3 <= |p|
  {
    Vec3(p[o], p[o + 1], p[o + 2])
  }

  /** Vector k sits at slots [3k, 3k + 3). */
  lemma {:induction false} TriplesAt(xs: seq<Vec3>, k: nat)
    requires k < |xs|
    ensures |Triples(xs)| == 3 * |xs|
    ensures Vec3At(Triples(xs), 3 * k) == xs[k]
    decreases |xs|
  {
    var n := |xs| - 1;
    TriplesLength(xs[..n]);
    if k < n {
      TriplesAt(xs[..n], k);
      assert Triples(xs)[..3 * n] == Triples(xs[..n]);
    }
  }

  lemma {:induction false} TriplesLength(xs: seq<Vec3>)
    ensures |Triples(xs)| == 3 * |xs|
    decreases |xs|
  {
    if xs != [] {
      TriplesLength(xs[..|xs| - 1]);
    }
  }

  // ------------------------------------------------------------- admission

  /** What the admission loops look at of a key point or an ideal line. */
  datatype Candidate = Candidate(is3D: bool, obs: seq<Obs>, pos: Vec3)

  function PointCandidates(kps: seq<KeyPoint3d>): (r: seq<Candidate>)
    ensures |r| == |kps|
    ensures forall i :: 0 <= i < |kps| ==> r[i] == Candidate(kps[i].is3D, kps[i].obs, kps[i].pos)
  {
    seq(|kps|, i requires 0 <= i < |kps| => Candidate(kps[i].is3D, kps[i].obs, kps[i].pos))
  }

  function LineCandidates(ils: seq<IdealLine3d>): (r: seq<Candidate>)
    ensures |r| == |ils|
    ensures forall i :: 0 <= i < |ils| ==> r[i] == Candidate(ils[i].is3D, ils[i].obs, ils[i].midpt)
  {
    seq(|ils|, i requires 0 <= i < |ils| => Candidate(ils[i].is3D, ils[i].obs, ils[i].midpt))
  }

  /** A triangulated landmark observed in some view >= fp takes part; one whose first
      observation predates frm is only reprojected, the others are optimised. */
  predicate Admitted(c: Candidate, fp: int)
  {
    c.is3D && SeenFrom(c.obs, fp)
  }

  predicate ReprojectOnly(c: Candidate, fp: int, frm: int)
  {
    Admitted(c, fp) && |c.obs| > 0 && c.obs[0].view < frm
  }

  predicate Optimised(c: Candidate, fp: int, frm: int)
  {
    Admitted(c, fp) && |c.obs| > 0 && c.obs[0].view >= frm
  }

  function OptFlags(cs: seq<Candidate>, fp: int, frm: int): (r: seq<bool>)
    ensures |r| == |cs| && forall i :: 0 <= i < |cs| ==> r[i] == Optimised(cs[i], fp, frm)
  {
    seq(|cs|, i requires 0 <= i < |cs| => Optimised(cs[i], fp, frm))
  }

  function RpjFlags(cs: seq<Candidate>, fp: int, frm: int): (r: seq<bool>)
    ensures |r| == |cs| && forall i :: 0 <= i < |cs| ==> r[i] == ReprojectOnly(cs[i], fp, frm)
  {
    seq(|cs|, i requires 0 <= i < |cs| => ReprojectOnly(cs[i], fp, frm))
  }

  /** Every admitted landmark is in exactly one of the two lists; the lists are in index order. */
  lemma Classification(cs: seq<Candidate>, fp: int, frm: int, i: nat)
    requires i < |cs|
    ensures i in Select(OptFlags(cs, fp, frm)) <==> Admitted(cs[i], fp) && cs[i].obs[0].view >= frm
    ensures i in Select(RpjFlags(cs, fp, frm)) <==> Admitted(cs[i], fp) && cs[i].obs[0].view < frm
    ensures !(i in Select(OptFlags(cs, fp, frm)) && i in Select(RpjFlags(cs, fp, frm)))
    ensures Admitted(cs[i], fp) <==> (i in Select(OptFlags(cs, fp, frm)) || i in Select(RpjFlags(cs, fp, frm)))
  {
    SelectExact(OptFlags(cs, fp, frm));
    SelectExact(RpjFlags(cs, fp, frm));
  }

  function Positions(cs: seq<Candidate>, idx: seq<nat>): (r: seq<Vec3>)
    requires forall k :: 0 <= k < |idx| ==> idx[k] < |cs|
    ensures |r| == |idx| && forall k :: 0 <= k < |idx| ==> r[k] == cs[idx[k]].pos
  {
    seq(|idx|, k requires 0 <= k < |idx| => cs[idx[k]].pos)
  }

  /** Appending an index appends its position: `Triples(Positions(...))` grows by three. */
  lemma PositionsSnoc(cs: seq<Candidate>, idx: seq<nat>, i: nat)
    requires (forall k :: 0 <= k < |idx| ==> idx[k] < |cs|) && i < |cs|
    ensures Triples(Positions(cs, idx + [i])) == Triples(Positions(cs, idx)) + [cs[i].pos.x, cs[i].pos.y, cs[i].pos.z]
  {
    assert Positions(cs, idx + [i]) == Positions(cs, idx) + [cs[i].pos];
    assert Positions(cs, idx + [i])[..|idx|] == Positions(cs, idx);
  }

  function VpPositions(vps: seq<VanishingPoint>): (r: seq<Vec3>)
    ensures |r| == |vps| && forall k :: 0 <= k < |vps| ==> r[k] == vps[k].pos
  {
    seq(|vps|, k requires 0 <= k < |vps| => vps[k].pos)
  }

  // ---------------------------------------------------------------- layout

  /** The index lists and sizes the cost function is handed. */
  datatype Layout = Layout(
    numView: nat, fp: int, frm: int,
    kOpt: seq<nat>, kRpj: seq<nat>, numVp: nat, lOpt: seq<nat>, lRpj: seq<nat>)

  function LayoutOf(st: MapState): (L: Layout)
    ensures L.numView == |st.views| && L.numVp == |st.vanishingPoints|
    ensures L.fp == LmFrontPosIdx(|st.views|) && L.frm == LmFrontFrmIdx(|st.views|)
    ensures 1 <= L.fp && 0 <= L.frm <= L.fp
    ensures |st.views| >= 1 ==> L.fp <= |st.views|
    ensures forall k :: 0 <= k < |L.kOpt| ==> L.kOpt[k] < |st.keyPoints|
    ensures forall k :: 0 <= k < |L.kRpj| ==> L.kRpj[k] < |st.keyPoints|
    ensures forall k :: 0 <= k < |L.lOpt| ==> L.lOpt[k] < |st.idealLines|
    ensures forall k :: 0 <= k < |L.lRpj| ==> L.lRpj[k] < |st.idealLines|
  {
    var n := |st.views|;
    var fp := LmFrontPosIdx(n);
    var frm := LmFrontFrmIdx(n);
    var pc := PointCandidates(st.keyPoints);
    var lc := LineCandidates(st.idealLines);
    Layout(n, fp, frm,
           Select(OptFlags(pc, fp, frm)), Select(RpjFlags(pc, fp, frm)),
           |st.vanishingPoints|,
           Select(OptFlags(lc, fp, frm)), Select(RpjFlags(lc, fp, frm)))
  }

  function PointBase(L: Layout): nat { PoseSpan(L.fp, L.numView) }
  function VpBase(L: Layout): nat { PointBase(L) + 3 * |L.kOpt| }
  function LineBase(L: Layout): nat { VpBase(L) + 3 * L.numVp }
  function NumPara(L: Layout): nat { LineBase(L) + 3 * |L.lOpt| }

  /** The initial parameter vector `paraVec`. */
  function ParaVec(st: MapState, geo: LmGeometry): seq<real>
  {
    var L := LayoutOf(st);
    PoseParas(st.views, L.fp, |st.views|, geo) +
    Triples(Positions(PointCandidates(st.keyPoints), L.kOpt)) +
    Triples(VpPositions(st.vanishingPoints)) +
    Triples(Positions(LineCandidates(st.idealLines), L.lOpt))
  }

  /** numPara = 7 (n - frontPosIdx), less one when view 1 is optimised, plus three
      per optimised point, vanishing point and optimised line. */
  lemma ParaVecLength(st: MapState, geo: LmGeometry)
    requires |st.views| >= 1
    ensures var L := LayoutOf(st);
            && |ParaVec(st, geo)| == NumPara(L)
            && NumPara(L) == 7 * (L.numView - L.fp) - (if L.fp <= 1 < L.numView then 1 else 0)
                             + 3 * (|L.kOpt| + L.numVp + |L.lOpt|)
  {
    var L := LayoutOf(st);
    PoseParasLength(st.views, L.fp, |st.views|, geo);
    PoseSpanClosed(L.fp, L.numView);
    TriplesLength(Positions(PointCandidates(st.keyPoints), L.kOpt));
    TriplesLength(VpPositions(st.vanishingPoints));
    TriplesLength(Positions(LineCandidates(st.idealLines), L.lOpt));
  }

  // ---------------------------------------------------------------- decoding

  datatype Translation = Direction(alpha: real, beta: real) | Offset(t: Vec3)
  datatype PoseParam = PoseParam(q: Quat, t: Translation)

  /** The pose of view i as the cost function and the write-back read it. */
  function DecodedPose(p: seq<real>, L: Layout, i: int): PoseParam
    requires |p| == NumPara(L) && 0 <= L.fp <= i < L.numView
  {
    PoseSpanMono(L.fp, i, L.numView);
    var o := PoseSpan(L.fp, i);
    PoseParam(Quat(p[o], p[o + 1], p[o + 2], p[o + 3]),
              if i == 1 then Direction(p[o + 4], p[o + 5]) else Offset(Vec3(p[o + 4], p[o + 5], p[o + 6])))
  }

  function PoseRotation(pp: PoseParam, geo: LmGeometry): Rotation
  {
    geo.fromQuat(pp.q)
  }

  function PoseTranslation(pp: PoseParam, geo: LmGeometry): Vec3
  {
    match pp.t
    case Direction(a, b) => geo.fromAngles(a, b)
    case Offset(t) => t
  }

  function DecodedPoint(p: seq<real>, L: Layout, k: nat): Vec3
    requires |p| == NumPara(L) && k < |L.kOpt|
  {
    Vec3At(p, PointBase(L) + 3 * k)
  }

  lemma DecodedPointAt(p: seq<real>, L: Layout, k: nat, o: nat)
    requires |p| == NumPara(L) && k < |L.kOpt| && o == PointBase(L) + 3 * k
    ensures o + 2 < |p| && DecodedPoint(p, L, k) == Vec3(p[o], p[o + 1], p[o + 2])
  {
  }

  function DecodedVp(p: seq<real>, L: Layout, k: nat): Vec3
    requires |p| == NumPara(L) && k < L.numVp
  {
    Vec3At(p, VpBase(L) + 3 * k)
  }

  function DecodedLine(p: seq<real>, L: Layout, k: nat): Vec3
    requires |p| == NumPara(L) && k < |L.lOpt|
  {
    Vec3At(p, LineBase(L) + 3 * k)
  }

  lemma DecodedLineAt(p: seq<real>, L: Layout, k: nat, o: nat)
    requires |p| == NumPara(L) && k < |L.lOpt| && o == LineBase(L) + 3 * k
    ensures o + 2 < |p| && DecodedLine(p, L, k) == Vec3(p[o], p[o + 1], p[o + 2])
  {
  }

  /** Reading a pose block placed at the decoder's offset. */
  lemma PoseRead(p: seq<real>, L: Layout, i: int, blk: seq<real>)
    requires |p| == NumPara(L) && 0 <= L.fp <= i < L.numView && |blk| == PoseSlots(i)
    requires PoseSpan(L.fp, i) + |blk| <= |p| && p[PoseSpan(L.fp, i)..PoseSpan(L.fp, i) + |blk|] == blk
    ensures DecodedPose(p, L, i) ==
      PoseParam(Quat(blk[0], blk[1], blk[2], blk[3]),
                if i == 1 then Direction(blk[4], blk[5]) else Offset(Vec3(blk[4], blk[5], blk[6])))
  {
    var o := PoseSpan(L.fp, i);
    assert forall j :: 0 <= j < |blk| ==> p[o + j] == blk[j];
  }

  /** Reading three slots inside a block of triples placed at `b`. */
  lemma TripleRead(p: seq<real>, b: nat, xs: seq<Vec3>, k: nat)
    requires k < |xs| && b + |Triples(xs)| <= |p| && p[b..b + |Triples(xs)|] == Triples(xs)
    ensures b + 3 * k + 3 <= |p| && Vec3At(p, b + 3 * k) == xs[k]
  {
    TriplesAt(xs, k);
    var t := Triples(xs);
    assert forall j :: 0 <= j < |t| ==> p[b + j] == t[j];
  }

  /** The four parts of the initial vector, at their offsets. */
  lemma ParaVecParts(st: MapState, geo: LmGeometry)
    requires |st.views| >= 1
    ensures var L := LayoutOf(st);
            var p := ParaVec(st, geo);
            var pts := Triples(Positions(PointCandidates(st.keyPoints), L.kOpt));
            var vps := Triples(VpPositions(st.vanishingPoints));
            var lns := Triples(Positions(LineCandidates(st.idealLines), L.lOpt));
            && |p| == NumPara(L)
            && p[..PointBase(L)] == PoseParas(st.views, L.fp, |st.views|, geo)
            && |pts| == VpBase(L) - PointBase(L) && p[PointBase(L)..VpBase(L)] == pts
            && |vps| == LineBase(L) - VpBase(L) && p[VpBase(L)..LineBase(L)] == vps
            && |lns| == NumPara(L) - LineBase(L) && p[LineBase(L)..] == lns
  {
    var L := LayoutOf(st);
    var pts := Triples(Positions(PointCandidates(st.keyPoints), L.kOpt));
    var vps := Triples(VpPositions(st.vanishingPoints));
    var lns := Triples(Positions(LineCandidates(st.idealLines), L.lOpt));
    ParaVecLength(st, geo);
    PoseParasLength(st.views, L.fp, |st.views|, geo);
    TriplesLength(Positions(PointCandidates(st.keyPoints), L.kOpt));
    TriplesLength(VpPositions(st.vanishingPoints));
    TriplesLength(Positions(LineCandidates(st.idealLines), L.lOpt));
    ConcatParts(PoseParas(st.views, L.fp, |st.views|, geo), pts, vps, lns, PointBase(L), VpBase(L), LineBase(L));
  }

  lemma ConcatParts(a: seq<real>, b: seq<real>, c: seq<real>, d: seq<real>, i: nat, j: nat, k: nat)
    requires i == |a| && j == i + |b| && k == j + |c|
    ensures var s := a + b + c + d;
            s[..i] == a && s[i..j] == b && s[j..k] == c && s[k..] == d
  {
  }

  /** Reading the initial vector back at the decoder's offsets gives each optimised
      view's encoded rotation and translation (the two angles for view 1, the
      translation itself otherwise). */
  lemma DecodeEncodePose(st: MapState, geo: LmGeometry, i: int)
    requires |st.views| >= 1 && LayoutOf(st).fp <= i < |st.views|
    ensures |ParaVec(st, geo)| == NumPara(LayoutOf(st))
    ensures DecodedPose(ParaVec(st, geo), LayoutOf(st), i) ==
      PoseParam(geo.toQuat(st.views[i].r),
                if i == 1 then Direction(geo.toAngles(st.views[i].t).0, geo.toAngles(st.views[i].t).1)
                else Offset(st.views[i].t))
  {
    var L := LayoutOf(st);
    var p := ParaVec(st, geo);
    ParaVecParts(st, geo);
    PoseParasLayout(st.views, L.fp, |st.views|, geo, i);
    var o := PoseSpan(L.fp, i);
    var blk := PoseBlock(st.views[i], i, geo);
    SliceOfPrefix(p, PointBase(L), o, |blk|);
    PoseRead(p, L, i, blk);
  }

  lemma SliceOfPrefix(p: seq<real>, n: nat, o: nat, m: nat)
    requires o + m <= n <= |p|
    ensures p[o..o + m] == p[..n][o..o + m]
  {
  }

  /** ... the k-th optimised key point's position ... */
  lemma DecodeEncodePoint(st: MapState, geo: LmGeometry, k: nat)
    requires |st.views| >= 1 && k < |LayoutOf(st).kOpt|
    ensures |ParaVec(st, geo)| == NumPara(LayoutOf(st))
    ensures DecodedPoint(ParaVec(st, geo), LayoutOf(st), k) == st.keyPoints[LayoutOf(st).kOpt[k]].pos
  {
    var L := LayoutOf(st);
    ParaVecParts(st, geo);
    TripleRead(ParaVec(st, geo), PointBase(L), Positions(PointCandidates(st.keyPoints), L.kOpt), k);
  }

  /** ... every vanishing point's position ... */
  lemma DecodeEncodeVp(st: MapState, geo: LmGeometry, k: nat)
    requires |st.views| >= 1 && k < |st.vanishingPoints|
    ensures |ParaVec(st, geo)| == NumPara(LayoutOf(st))
    ensures DecodedVp(ParaVec(st, geo), LayoutOf(st), k) == st.vanishingPoints[k].pos
  {
    var L := LayoutOf(st);
    ParaVecParts(st, geo);
    TripleRead(ParaVec(st, geo), VpBase(L), VpPositions(st.vanishingPoints), k);
  }

  /** ... and the k-th optimised line's mid-point. */
  lemma DecodeEncodeLine(st: MapState, geo: LmGeometry, k: nat)
    requires |st.views| >= 1 && k < |LayoutOf(st).lOpt|
    ensures |ParaVec(st, geo)| == NumPara(LayoutOf(st))
    ensures DecodedLine(ParaVec(st, geo), LayoutOf(st), k) == st.idealLines[LayoutOf(st).lOpt[k]].midpt
  {
    var L := LayoutOf(st);
    ParaVecParts(st, geo);
    TripleRead(ParaVec(st, geo), LineBase(L), Positions(LineCandidates(st.idealLines), L.lOpt), k);
  }

  // ------------------------------------------------------- building paraVec

  method PushPoses(views: seq<View>, fp: int, geo: LmGeometry) returns (para: seq<real>)
    requires 0 <= fp
    ensures para == PoseParas(views, fp, |views|, geo)
  {
    para := [];
    var i := fp;
    while i < |views|
      invariant fp <= i
      invariant i > |views| ==> i == fp && para == []
      invariant i <= |views| ==> para == PoseParas(views, fp, i, geo)
      decreases |views| - i
    {
      var q := geo.toQuat(views[i].r);
      para := para + [q.w, q.x, q.y, q.z];
      if i == 1 {
        var ab := geo.toAngles(views[i].t);
        para := para + [ab.0, ab.1];
      } else {
        para := para + [views[i].t.x, views[i].t.y, views[i].t.z];
      }
      i := i + 1;
    }
  }

  /** The admission loop shared by key points and ideal lines: a triangulated
      landmark with an observation at or after fp is appended to the reproject-only
      list when first seen before frm, otherwise its position joins the parameters. */
  method Classify(cs: seq<Candidate>, fp: int, frm: int) returns (vals: seq<real>, opt: seq<nat>, rpj: seq<nat>)
    ensures opt == Select(OptFlags(cs, fp, frm)) && rpj == Select(RpjFlags(cs, fp, frm))
    ensures vals == Triples(Positions(cs, opt))
  {
    vals, opt, rpj := [], [], [];
    var of := OptFlags(cs, fp, frm);
    var rf := RpjFlags(cs, fp, frm);
    var i := 0;
    while i < |cs|
      invariant 0 <= i <= |cs|
      invariant Classified(cs, of, rf, i, vals, opt, rpj)
    {
      vals, opt, rpj := ClassifyStep(cs, fp, frm, of, rf, i, vals, opt, rpj);
      i := i + 1;
    }
    assert of[..|cs|] == of;
    assert rf[..|cs|] == rf;
  }

  /** After i candidates: the two index lists select the flagged ones so far, and
      `vals` holds the positions of the optimised ones. */
  predicate Classified(cs: seq<Candidate>, of: seq<bool>, rf: seq<bool>, i: nat, vals: seq<real>, opt: seq<nat>, rpj: seq<nat>)
  {
    && i <= |of| && i <= |rf|
    && opt == Select(of[..i]) && rpj == Select(rf[..i])
    && (forall k :: 0 <= k < |opt| ==> opt[k] < i && opt[k] < |cs|)
    && vals == Triples(Positions(cs, opt))
  }

  /** One candidate of the admission loop. */
  method ClassifyStep(cs: seq<Candidate>, fp: int, frm: int, of: seq<bool>, rf: seq<bool>, i: nat,
                      vals: seq<real>, opt: seq<nat>, rpj: seq<nat>)
    returns (vals': seq<real>, opt': seq<nat>, rpj': seq<nat>)
    requires i < |cs| && of == OptFlags(cs, fp, frm) && rf == RpjFlags(cs, fp, frm)
    requires Classified(cs, of, rf, i, vals, opt, rpj)
    ensures Classified(cs, of, rf, i + 1, vals', opt', rpj')
  {
    vals', opt', rpj' := vals, opt, rpj;
    if cs[i].is3D {
      var seen := G2oBuild.SeenFromSearch(cs[i].obs, fp);
      if seen {
        assert |cs[i].obs| > 0;
        if cs[i].obs[0].view < frm {
          SelectSnocUnset(of, i);
          SelectSnocSet(rf, i);
          rpj' := rpj + [i];
        } else {
          SelectSnocSet(of, i);
          SelectSnocUnset(rf, i);
          var c := cs[i].pos;
          PositionsSnoc(cs, opt, i);
          vals' := vals + [c.x, c.y, c.z];
          opt' := opt + [i];
        }
      } else {
        SelectSnocUnset(of, i);
        SelectSnocUnset(rf, i);
      }
    } else {
      SelectSnocUnset(of, i);
      SelectSnocUnset(rf, i);
    }
  }

  method PushVps(vps: seq<VanishingPoint>) returns (vals: seq<real>)
    ensures vals == Triples(VpPositions(vps))
  {
    vals := [];
    var i := 0;
    while i < |vps|
      invariant 0 <= i <= |vps|
      invariant vals == Triples(VpPositions(vps[..i]))
    {
      assert VpPositions(vps[..i + 1])[..i] == VpPositions(vps[..i]);
      vals := vals + [vps[i].pos.x, vps[i].pos.y, vps[i].pos.z];
      i := i + 1;
    }
    assert vps[..|vps|] == vps;
  }

  /** The parameter-vector loops of the driver, with the index lists they fill. */
  method BuildParaVec(st: MapState, geo: LmGeometry) returns (para: seq<real>, L: Layout)
    ensures L == LayoutOf(st) && para == ParaVec(st, geo)
  {
    var n := |st.views|;
    var fp := Max(1, n - LmNumPos);
    var frm := Max(0, n - LmNumFrm);
    var poses := PushPoses(st.views, fp, geo);
    var pv, kOpt, kRpj := Classify(PointCandidates(st.keyPoints), fp, frm);
    var vv := PushVps(st.vanishingPoints);
    var lv, lOpt, lRpj := Classify(LineCandidates(st.idealLines), fp, frm);
    para := poses + pv + vv + lv;
    L := Layout(n, fp, frm, kOpt, kRpj, |st.vanishingPoints|, lOpt, lRpj);
  }

  // ------------------------------------------------------------ measurements

  /** Observations in view frm or later. */
  function ObsFrom(obs: seq<Obs>, frm: int): nat
    decreases |obs|
  {
    if obs == [] then 0
    else ObsFrom(obs[..|obs| - 1], frm) + (if obs[|obs| - 1].view >= frm then 1 else 0)
  }

  /** Two measurements per observation of a listed point in view frm or later. */
  function PointMeas(kps: seq<KeyPoint3d>, idx: seq<nat>, frm: int): nat
    requires forall k :: 0 <= k < |idx| ==> idx[k] < |kps|
    decreases |idx|
  {
    if idx == [] then 0
    else PointMeas(kps, idx[..|idx| - 1], frm) + 2 * ObsFrom(kps[idx[|idx| - 1]].obs, frm)
  }

  /** One measurement per stored segment endpoint of each line observation in view frm or later. */
  function LineObsMeas(obs: seq<Obs>, views: seq<View>, frm: int): nat
    requires LineObsValid(views, obs)
    decreases |obs|
  {
    if obs == [] then 0
    else
      var o := obs[|obs| - 1];
      LineObsMeas(obs[..|obs| - 1], views, frm) +
      (if o.view >= frm then |views[o.view].idealLines[o.local].lsEndpoints| else 0)
  }

  function LineMeas(ils: seq<IdealLine3d>, idx: seq<nat>, views: seq<View>, frm: int): nat
    requires forall k :: 0 <= k < |idx| ==> idx[k] < |ils| && LineObsValid(views, ils[idx[k]].obs)
    decreases |idx|
  {
    if idx == [] then 0
    else LineMeas(ils, idx[..|idx| - 1], views, frm) + LineObsMeas(ils[idx[|idx| - 1]].obs, views, frm)
  }

  predicate LinesObsValid(st: MapState)
  {
    forall i :: 0 <= i < |st.idealLines| ==> LineObsValid(st.views, st.idealLines[i].obs)
  }

  /** The layout fits the map: its sizes are the map's and its lists name existing landmarks. */
  predicate LayoutFits(st: MapState, L: Layout)
  {
    && L.numView == |st.views| && L.numVp == |st.vanishingPoints|
    && (forall k :: 0 <= k < |L.kOpt| ==> L.kOpt[k] < |st.keyPoints|)
    && (forall k :: 0 <= k < |L.kRpj| ==> L.kRpj[k] < |st.keyPoints|)
    && (forall k :: 0 <= k < |L.lOpt| ==> L.lOpt[k] < |st.idealLines|)
    && (forall k :: 0 <= k < |L.lRpj| ==> L.lRpj[k] < |st.idealLines|)
  }

  lemma LayoutOfFits(st: MapState)
    ensures LayoutFits(st, LayoutOf(st))
  {
  }

  /** The point entries of the measurement vector: optimised, then reproject-only points. */
  function PtMeas(st: MapState, L: Layout): nat
    requires LayoutFits(st, L)
  {
    PointMeas(st.keyPoints, L.kOpt, L.frm) + PointMeas(st.keyPoints, L.kRpj, L.frm)
  }

  /** The line entries of the measurement vector: optimised, then reproject-only lines. */
  function LnMeas(st: MapState, L: Layout): nat
    requires LayoutFits(st, L) && LinesObsValid(st)
  {
    LineMeas(st.idealLines, L.lOpt, st.views, L.frm) + LineMeas(st.idealLines, L.lRpj, st.views, L.frm)
  }

  /** numMeas: optimised points, reproject-only points, optimised lines, reproject-only lines. */
  function NumMeas(st: MapState, L: Layout): nat
    requires LayoutFits(st, L) && LinesObsValid(st)
  {
    PtMeas(st, L) + LnMeas(st, L)
  }

  function Zeros(n: nat): (r: seq<real>)
    ensures |r| == n && forall k :: 0 <= k < n ==> r[k] == 0.0
  {
    seq(n, _ => 0.0)
  }

  lemma ZerosAppend(m: nat, n: nat)
    ensures Zeros(m) + Zeros(n) == Zeros(m + n)
  {
  }

  method PointMeasLoop(kps: seq<KeyPoint3d>, idx: seq<nat>, frm: int) returns (meas: seq<real>)
    requires forall k :: 0 <= k < |idx| ==> idx[k] < |kps|
    ensures meas == Zeros(PointMeas(kps, idx, frm))
  {
    meas := [];
    var i := 0;
    while i < |idx|
      invariant 0 <= i <= |idx|
      invariant meas == Zeros(PointMeas(kps, idx[..i], frm))
    {
      assert idx[..i + 1][..i] == idx[..i];
      var obs := kps[idx[i]].obs;
      var j := 0;
      while j < |obs|
        invariant 0 <= j <= |obs|
        invariant meas == Zeros(PointMeas(kps, idx[..i], frm) + 2 * ObsFrom(obs[..j], frm))
      {
        assert obs[..j + 1][..j] == obs[..j];
        if obs[j].view >= frm {
          meas := meas + [0.0, 0.0];
        }
        j := j + 1;
      }
      assert obs[..|obs|] == obs;
      i := i + 1;
    }
    assert idx[..|idx|] == idx;
  }

  method LineMeasLoop(ils: seq<IdealLine3d>, idx: seq<nat>, views: seq<View>, frm: int) returns (meas: seq<real>)
    requires forall k :: 0 <= k < |idx| ==> idx[k] < |ils| && LineObsValid(views, ils[idx[k]].obs)
    ensures meas == Zeros(LineMeas(ils, idx, views, frm))
  {
    meas := [];
    var i := 0;
    while i < |idx|
      invariant 0 <= i <= |idx|
      invariant meas == Zeros(LineMeas(ils, idx[..i], views, frm))
    {
      assert idx[..i + 1][..i] == idx[..i];
      var obs := ils[idx[i]].obs;
      var j := 0;
      while j < |obs|
        invariant 0 <= j <= |obs|
        invariant meas == Zeros(LineMeas(ils, idx[..i], views, frm) + LineObsMeas(obs[..j], views, frm))
      {
        assert obs[..j + 1][..j] == obs[..j];
        if obs[j].view >= frm {
          var ends := views[obs[j].view].idealLines[obs[j].local].lsEndpoints;
          var k := 0;
          ghost var before := |meas|;
          while k < |ends|
            invariant 0 <= k <= |ends|
            invariant meas == Zeros(before + k)
          {
            meas := meas + [0.0];
            k := k + 1;
          }
        }
        j := j + 1;
      }
      assert obs[..|obs|] == obs;
      i := i + 1;
    }
    assert idx[..|idx|] == idx;
  }

  /** The measurement vector `measVec`: numMeas zeros. */
  method MeasVec(st: MapState, L: Layout) returns (meas: seq<real>)
    requires LayoutFits(st, L) && LinesObsValid(st)
    ensures meas == Zeros(NumMeas(st, L))
  {
    var a := PointMeasLoop(st.keyPoints, L.kOpt, L.frm);
    var b := PointMeasLoop(st.keyPoints, L.kRpj, L.frm);
    ZerosAppend(PointMeas(st.keyPoints, L.kOpt, L.frm), PointMeas(st.keyPoints, L.kRpj, L.frm));
    var c := LineMeasLoop(st.idealLines, L.lOpt, st.views, L.frm);
    var d := LineMeasLoop(st.idealLines, L.lRpj, st.views, L.frm);
    ZerosAppend(LineMeas(st.idealLines, L.lOpt, st.views, L.frm), LineMeas(st.idealLines, L.lRpj, st.views, L.frm));
    ZerosAppend(PtMeas(st, L), LnMeas(st, L));
    meas := (a + b) + (c + d);
  }
}
