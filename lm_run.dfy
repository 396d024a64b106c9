/** One run of `adjustBundle_PtLnVp`: build the parameter and measurement vectors,
    hand them to levmar together with the cost function, decode the final vector
    back into the map along the same offsets, and store the totals of the last
    cost evaluation on the newest view. */
module LmRun {
  import opened SeqUtil
  import opened Entities
  import opened LmLayout
  import opened LmCost

  /** `dlevmar_dif`, which is numeric and not part of this model: `result(p, k)` is slot
      k of the vector it leaves in `para` when started from `p`, and `lastEval(p, k)`
      slot k of the vector it last passed to the cost function, whose totals are the
      ones the driver finds in the shared data afterwards. */
  datatype LmSolver = LmSolver(result: (seq<real>, nat) -> real, lastEval: (seq<real>, nat) -> real)

  /** A vector the solver derives from `p`, slot by slot; it has the length of `p`. */
  function SolverOutput(f: (seq<real>, nat) -> real, p: seq<real>): (r: seq<real>)
    ensures |r| == |p| && forall k :: 0 <= k < |p| ==> r[k] == f(p, k)
  {
    seq(|p|, k requires 0 <= k < |p| => f(p, k))
  }

  // ------------------------------------------------------------- write-back

  /** A view at or after frontPosIdx takes its decoded rotation and translation. */
  function NewView(v: View, i: int, p: seq<real>, L: Layout, geo: LmGeometry): View
    requires |p| == NumPara(L) && 0 <= L.fp && 0 <= i < L.numView
  {
    if L.fp <= i then
      var pp := DecodedPose(p, L, i);
      v.(r := PoseRotation(pp, geo), t := PoseTranslation(pp, geo))
    else v
  }

  function PointFlags(st: MapState): seq<bool>
  {
    OptFlags(PointCandidates(st.keyPoints), LayoutOf(st).fp, LayoutOf(st).frm)
  }

  function LineFlags(st: MapState): seq<bool>
  {
    OptFlags(LineCandidates(st.idealLines), LayoutOf(st).fp, LayoutOf(st).frm)
  }

  /** `kptIdx2Opt` and `idlIdx2Opt` select the flagged entries; one flag per entity. */
  lemma OptListsSelect(st: MapState)
    ensures LayoutOf(st).kOpt == Select(PointFlags(st)) && |PointFlags(st)| == |st.keyPoints|
    ensures LayoutOf(st).lOpt == Select(LineFlags(st)) && |LineFlags(st)| == |st.idealLines|
  {
  }

  /** An optimised point takes the position decoded at its offset in `kptIdx2Opt`. */
  function NewPoint(st: MapState, p: seq<real>, i: nat): KeyPoint3d
    requires |p| == NumPara(LayoutOf(st)) && i < |st.keyPoints|
  {
    var f := PointFlags(st);
    if f[i] then
      SelectAtRank(f, i);
      st.keyPoints[i].(pos := DecodedPoint(p, LayoutOf(st), Rank(f, i)))
    else st.keyPoints[i]
  }

  /** An optimised line takes its decoded mid-point and the direction of its
      (already updated) vanishing point; the mid-point is then replaced by the
      projection of the old mid-point onto the moved line. */
  function NewLine(st: MapState, p: seq<real>, i: nat, geo: LmGeometry): IdealLine3d
    requires |p| == NumPara(LayoutOf(st)) && i < |st.idealLines|
    requires 0 <= st.idealLines[i].vpGid < |st.vanishingPoints|
  {
    var f := LineFlags(st);
    var il := st.idealLines[i];
    if f[i] then
      SelectAtRank(f, i);
      var moved := il.(midpt := DecodedLine(p, LayoutOf(st), Rank(f, i)),
                       direct := geo.vpDirection(DecodedVp(p, LayoutOf(st), il.vpGid)));
      moved.(midpt := geo.projectToLine(moved, il.midpt))
    else il
  }

  predicate VpGidsValid(st: MapState)
  {
    forall i :: 0 <= i < |st.idealLines| ==> 0 <= st.idealLines[i].vpGid < |st.vanishingPoints|
  }

  /** The map after the write-back of `p`: only views at or after frontPosIdx, optimised
      points, vanishing points and optimised lines change, and of them only the fields
      the source assigns; reproject-only and unadmitted landmarks are left as they are. */
  function WriteBackSpec(st: MapState, p: seq<real>, geo: LmGeometry): (r: MapState)
    requires |st.views| >= 1 && |p| == NumPara(LayoutOf(st)) && VpGidsValid(st)
    ensures |r.views| == |st.views| && |r.keyPoints| == |st.keyPoints|
    ensures |r.vanishingPoints| == |st.vanishingPoints| && |r.idealLines| == |st.idealLines|
    ensures r.primaryPlanes == st.primaryPlanes
    ensures forall i :: 0 <= i < |st.views| ==>
              r.views[i] == (if i < LayoutOf(st).fp then st.views[i] else st.views[i].(r := r.views[i].r, t := r.views[i].t))
    ensures forall i :: 0 <= i < |st.keyPoints| ==>
              r.keyPoints[i] == (if Optimised(PointCandidates(st.keyPoints)[i], LayoutOf(st).fp, LayoutOf(st).frm)
                                 then st.keyPoints[i].(pos := r.keyPoints[i].pos) else st.keyPoints[i])
    ensures forall i :: 0 <= i < |st.vanishingPoints| ==>
              r.vanishingPoints[i] == st.vanishingPoints[i].(pos := r.vanishingPoints[i].pos)
    ensures forall i :: 0 <= i < |st.idealLines| ==>
              r.idealLines[i] == (if Optimised(LineCandidates(st.idealLines)[i], LayoutOf(st).fp, LayoutOf(st).frm)
                                  then st.idealLines[i].(midpt := r.idealLines[i].midpt, direct := r.idealLines[i].direct)
                                  else st.idealLines[i])
  {
    var L := LayoutOf(st);
    st.(views := seq(|st.views|, i requires 0 <= i < |st.views| => NewView(st.views[i], i, p, L, geo)),
        keyPoints := seq(|st.keyPoints|, i requires 0 <= i < |st.keyPoints| => NewPoint(st, p, i)),
        vanishingPoints := seq(|st.vanishingPoints|, i requires 0 <= i < |st.vanishingPoints| =>
                                 st.vanishingPoints[i].(pos := DecodedVp(p, L, i))),
        idealLines := seq(|st.idealLines|, i requires 0 <= i < |st.idealLines| => NewLine(st, p, i, geo)))
  }

  /** The pose loop of the write-back; `pidx` ends where the points begin. */
  method WritePoses(views: seq<View>, p: seq<real>, L: Layout, geo: LmGeometry) returns (r: seq<View>, pidx: nat)
    requires |views| == L.numView && |p| == NumPara(L) && LayoutOk(L)
    ensures |r| == |views| && pidx == PointBase(L)
    ensures forall i :: 0 <= i < |views| ==> r[i] == NewView(views[i], i, p, L, geo)
  {
    r, pidx := views, 0;
    var i := L.fp;
    while i < |views|
      invariant L.fp <= i <= |views| && |r| == |views| && pidx == PoseSpan(L.fp, i)
      invariant forall j :: 0 <= j < |views| ==> r[j] == (if j < i then NewView(views[j], j, p, L, geo) else views[j])
    {
      PoseSpanMono(L.fp, i, L.numView);
      var q := Quat(p[pidx], p[pidx + 1], p[pidx + 2], p[pidx + 3]);
      var t: Vec3;
      if i == 1 {
        t := geo.fromAngles(p[pidx + 4], p[pidx + 5]);
      } else {
        t := Vec3(p[pidx + 4], p[pidx + 5], p[pidx + 6]);
      }
      assert r[i].(r := geo.fromQuat(q), t := t) == NewView(views[i], i, p, L, geo);
      r := r[i := r[i].(r := geo.fromQuat(q), t := t)];
      pidx := pidx + PoseSlots(i);
      i := i + 1;
    }
  }

  /** The point loop: each index of `kptIdx2Opt`, three slots. */
  method WritePoints(st: MapState, p: seq<real>, pidx0: nat) returns (r: seq<KeyPoint3d>, pidx: nat)
    requires |p| == NumPara(LayoutOf(st)) && pidx0 == PointBase(LayoutOf(st))
    ensures |r| == |st.keyPoints| && pidx == VpBase(LayoutOf(st))
    ensures forall i :: 0 <= i < |r| ==> r[i] == NewPoint(st, p, i)
  {
    var L := LayoutOf(st);
    var f := PointFlags(st);
    ghost var nw := seq(|st.keyPoints|, j requires 0 <= j < |st.keyPoints| => NewPoint(st, p, j));
    OptListsSelect(st);
    r, pidx := st.keyPoints, pidx0;
    var i := 0;
    while i < |L.kOpt|
      invariant 0 <= i <= |L.kOpt| && pidx == PointBase(L) + 3 * i
      invariant WrittenUpTo(f, i, r, st.keyPoints, nw)
    {
      var idx := L.kOpt[i];
      WrittenUpToStep(f, i, r, st.keyPoints, nw);
      NewPointAt(st, p, i, pidx, r[idx]);
      r := r[idx := r[idx].(pos := Vec3(p[pidx], p[pidx + 1], p[pidx + 2]))];
      pidx := pidx + 3;
      i := i + 1;
    }
    WrittenUpToDone(f, r, st.keyPoints, nw);
  }

  /** The update the point loop makes at offset `i` of `kptIdx2Opt` is `NewPoint`. */
  lemma NewPointAt(st: MapState, p: seq<real>, i: nat, o: nat, kp0: KeyPoint3d)
    requires |p| == NumPara(LayoutOf(st)) && i < |LayoutOf(st).kOpt| && o == PointBase(LayoutOf(st)) + 3 * i
    requires LayoutOf(st).kOpt[i] < |st.keyPoints| && kp0 == st.keyPoints[LayoutOf(st).kOpt[i]]
    ensures o + 2 < |p| && NewPoint(st, p, LayoutOf(st).kOpt[i]) == kp0.(pos := Vec3(p[o], p[o + 1], p[o + 2]))
  {
    var L, f := LayoutOf(st), PointFlags(st);
    OptListsSelect(st);
    RankOfSelected(f, i);
    var idx := L.kOpt[i];
    assert f[idx] && Rank(f, idx) == i;
    DecodedPointAt(p, L, i, o);
  }

  /** The vanishing-point loop: every vanishing point, three slots. */
  method WriteVps(vps: seq<VanishingPoint>, p: seq<real>, pidx0: nat, L: Layout) returns (r: seq<VanishingPoint>, pidx: nat)
    requires |vps| == L.numVp && |p| == NumPara(L) && pidx0 == VpBase(L)
    ensures |r| == |vps| && pidx == LineBase(L)
    ensures forall i :: 0 <= i < |r| ==> r[i] == vps[i].(pos := DecodedVp(p, L, i))
  {
    r, pidx := vps, pidx0;
    var i := 0;
    while i < |vps|
      invariant 0 <= i <= |vps| && |r| == |vps| && pidx == VpBase(L) + 3 * i
      invariant forall j :: 0 <= j < |r| ==> r[j] == (if j < i then vps[j].(pos := DecodedVp(p, L, j)) else vps[j])
    {
      r := r[i := r[i].(pos := Vec3(p[pidx], p[pidx + 1], p[pidx + 2]))];
      pidx := pidx + 3;
      i := i + 1;
    }
  }

  /** The line loop: each index of `idlIdx2Opt`, three slots; the old mid-point is read
      before it is overwritten, and the direction comes from the updated vanishing points. */
  method WriteLines(st: MapState, vps: seq<VanishingPoint>, p: seq<real>, pidx0: nat, geo: LmGeometry)
    returns (r: seq<IdealLine3d>, pidx: nat)
    requires |p| == NumPara(LayoutOf(st)) && pidx0 == LineBase(LayoutOf(st)) && VpGidsValid(st)
    requires |vps| == |st.vanishingPoints| && forall k :: 0 <= k < |vps| ==> vps[k].pos == DecodedVp(p, LayoutOf(st), k)
    ensures |r| == |st.idealLines| && pidx == NumPara(LayoutOf(st))
    ensures forall i :: 0 <= i < |r| ==> r[i] == NewLine(st, p, i, geo)
  {
    var L := LayoutOf(st);
    var f := LineFlags(st);
    ghost var nw := seq(|st.idealLines|, j requires 0 <= j < |st.idealLines| => NewLine(st, p, j, geo));
    OptListsSelect(st);
    r, pidx := st.idealLines, pidx0;
    var i := 0;
    while i < |L.lOpt|
      invariant 0 <= i <= |L.lOpt| && pidx == LineBase(L) + 3 * i
      invariant WrittenUpTo(f, i, r, st.idealLines, nw)
    {
      var idx := L.lOpt[i];
      ghost var r0 := r;
      WrittenUpToStep(f, i, r, st.idealLines, nw);
      NewLineAt(st, vps, p, i, pidx, r[idx], geo);
      var oldMidPt := r[idx].midpt;
      var il := r[idx].(midpt := Vec3(p[pidx], p[pidx + 1], p[pidx + 2]));
      il := il.(direct := geo.vpDirection(vps[il.vpGid].pos));
      pidx := pidx + 3;
      il := il.(midpt := geo.projectToLine(il, oldMidPt));
      assert il == nw[idx];
      r := r[idx := il];
      assert r == r0[Select(f)[i] := nw[Select(f)[i]]];
      i := i + 1;
    }
    WrittenUpToDone(f, r, st.idealLines, nw);
  }

  /** The update the line loop makes at offset `i` of `idlIdx2Opt`, from the loop's own
      variables, is `NewLine`. */
  lemma NewLineAt(st: MapState, vps: seq<VanishingPoint>, p: seq<real>, i: nat, o: nat, il0: IdealLine3d, geo: LmGeometry)
    requires |p| == NumPara(LayoutOf(st)) && VpGidsValid(st) && i < |LayoutOf(st).lOpt|
    requires o == LineBase(LayoutOf(st)) + 3 * i
    requires |vps| == |st.vanishingPoints| && forall k :: 0 <= k < |vps| ==> vps[k].pos == DecodedVp(p, LayoutOf(st), k)
    requires LayoutOf(st).lOpt[i] < |st.idealLines| && il0 == st.idealLines[LayoutOf(st).lOpt[i]]
    ensures o + 2 < |p| && 0 <= il0.vpGid < |vps|
    ensures var il1 := il0.(midpt := Vec3(p[o], p[o + 1], p[o + 2]));
            var il2 := il1.(direct := geo.vpDirection(vps[il1.vpGid].pos));
            NewLine(st, p, LayoutOf(st).lOpt[i], geo) == il2.(midpt := geo.projectToLine(il2, il0.midpt))
  {
    var L, f := LayoutOf(st), LineFlags(st);
    OptListsSelect(st);
    RankOfSelected(f, i);
    var idx := L.lOpt[i];
    assert f[idx] && Rank(f, idx) == i;
    DecodedLineAt(p, L, i, o);
    assert vps[il0.vpGid].pos == DecodedVp(p, L, il0.vpGid);
  }

  /** The loops above, in order, rebuild exactly `WriteBackSpec`. */
  method WriteBack(st: MapState, p: seq<real>, geo: LmGeometry) returns (r: MapState)
    requires |st.views| >= 1 && |p| == NumPara(LayoutOf(st)) && VpGidsValid(st)
    ensures r == WriteBackSpec(st, p, geo)
  {
    var L := LayoutOf(st);
    var views, pidx := WritePoses(st.views, p, L, geo);
    var kps;
    kps, pidx := WritePoints(st, p, pidx);
    var vps;
    vps, pidx := WriteVps(st.vanishingPoints, p, pidx, L);
    var ils;
    ils, pidx := WriteLines(st, vps, p, pidx, geo);
    r := st.(views := views, keyPoints := kps, vanishingPoints := vps, idealLines := ils);
  }

  /** Writing back the vector just built leaves every point and vanishing point where
      it was: the write-back reads each slot into the field it was filled from. */
  lemma WriteBackKeepsStructure(st: MapState, geo: LmGeometry)
    requires |st.views| >= 1 && VpGidsValid(st)
    ensures |ParaVec(st, geo)| == NumPara(LayoutOf(st))
    ensures var r := WriteBackSpec(st, ParaVec(st, geo), geo);
            r.keyPoints == st.keyPoints && r.vanishingPoints == st.vanishingPoints
  {
    var p := ParaVec(st, geo);
    ParaVecLength(st, geo);
    var r := WriteBackSpec(st, p, geo);
    var pf := PointFlags(st);
    forall i | 0 <= i < |st.keyPoints|
      ensures r.keyPoints[i] == st.keyPoints[i]
    {
      if pf[i] {
        SelectAtRank(pf, i);
        DecodeEncodePoint(st, geo, Rank(pf, i));
      }
    }
    forall i | 0 <= i < |st.vanishingPoints|
      ensures r.vanishingPoints[i] == st.vanishingPoints[i]
    {
      DecodeEncodeVp(st, geo, i);
    }
  }

  /** Each optimised view other than view 1 keeps its translation; rotations pass
      through the quaternion conversion and view 1's translation through its angles. */
  lemma WriteBackKeepsPoses(st: MapState, geo: LmGeometry)
    requires |st.views| >= 1 && VpGidsValid(st)
    ensures |ParaVec(st, geo)| == NumPara(LayoutOf(st))
    ensures var r := WriteBackSpec(st, ParaVec(st, geo), geo);
            forall i :: LayoutOf(st).fp <= i < |st.views| ==>
              r.views[i].r == geo.fromQuat(geo.toQuat(st.views[i].r)) &&
              r.views[i].t == (if i == 1 then geo.fromAngles(geo.toAngles(st.views[i].t).0, geo.toAngles(st.views[i].t).1)
                               else st.views[i].t)
  {
    var p := ParaVec(st, geo);
    ParaVecLength(st, geo);
    var r := WriteBackSpec(st, p, geo);
    forall i | LayoutOf(st).fp <= i < |st.views|
      ensures r.views[i].r == geo.fromQuat(geo.toQuat(st.views[i].r))
      ensures r.views[i].t == (if i == 1 then geo.fromAngles(geo.toAngles(st.views[i].t).0, geo.toAngles(st.views[i].t).1)
                               else st.views[i].t)
    {
      DecodeEncodePose(st, geo, i);
    }
  }

  /** An optimised line keeps its mid-point slot; it takes its vanishing point's
      direction and its mid-point is re-projected onto the line so formed. */
  lemma WriteBackLines(st: MapState, geo: LmGeometry)
    requires |st.views| >= 1 && VpGidsValid(st)
    ensures |ParaVec(st, geo)| == NumPara(LayoutOf(st))
    ensures var r := WriteBackSpec(st, ParaVec(st, geo), geo);
            forall i :: 0 <= i < |st.idealLines| && LineFlags(st)[i] ==>
              var il := st.idealLines[i];
              var moved := il.(direct := geo.vpDirection(st.vanishingPoints[il.vpGid].pos));
              r.idealLines[i] == moved.(midpt := geo.projectToLine(moved, il.midpt))
  {
    var p := ParaVec(st, geo);
    ParaVecLength(st, geo);
    var r := WriteBackSpec(st, p, geo);
    var lf := LineFlags(st);
    forall i | 0 <= i < |st.idealLines| && lf[i]
      ensures var il := st.idealLines[i];
              var moved := il.(direct := geo.vpDirection(st.vanishingPoints[il.vpGid].pos));
              r.idealLines[i] == moved.(midpt := geo.projectToLine(moved, il.midpt))
    {
      SelectAtRank(lf, i);
      DecodeEncodeLine(st, geo, Rank(lf, i));
      DecodeEncodeVp(st, geo, st.idealLines[i].vpGid);
    }
  }

  // ---------------------------------------------------------------- one run

  /** The totals are stored on the newest view (there is no plane error in this back end). */
  function StoreTotals(views: seq<View>, t: Totals): (r: seq<View>)
    requires |views| > 0
    ensures |r| == |views| && r[..|views| - 1] == views[..|views| - 1]
    ensures var v := r[|views| - 1];
            Totals(v.errPt, v.errLn, v.errAll, v.errPtMean, v.errLnMean) == t
    ensures r[|views| - 1].(errAll := 0.0, errPt := 0.0, errLn := 0.0, errPtMean := None, errLnMean := None) ==
            views[|views| - 1].(errAll := 0.0, errPt := 0.0, errLn := 0.0, errPtMean := None, errLnMean := None)
  {
    views[|views| - 1 := views[|views| - 1].(errAll := t.errAll, errPt := t.errPt, errLn := t.errLn,
                                             errPtMean := t.errPtMean, errLnMean := t.errLnMean)]
  }

  /** What the driver relies on without checking. */
  predicate RunReady(st: MapState)
  {
    CostReady(st, LayoutOf(st))
  }

  /** The totals the driver stores: those of the solver's last cost evaluation. */
  function LastTotals(st: MapState, K: Intrinsics, geo: LmGeometry, solver: LmSolver): Totals
    requires RunReady(st)
  {
    var L := LayoutOf(st);
    ParaVecLength(st, geo);
    var pe := SolverOutput(solver.lastEval, ParaVec(st, geo));
    CostSpec(st, L, pe, PrevPs(st.views, L.frm, L.fp, K, geo), K, geo).totals
  }

  function RunSpec(st: MapState, K: Intrinsics, geo: LmGeometry, solver: LmSolver): (r: MapState)
    requires RunReady(st)
    ensures |r.views| == |st.views| && r.primaryPlanes == st.primaryPlanes
    ensures var v := r.views[|st.views| - 1];
            Totals(v.errPt, v.errLn, v.errAll, v.errPtMean, v.errLnMean) == LastTotals(st, K, geo, solver)
  {
    ParaVecLength(st, geo);
    var w := WriteBackSpec(st, SolverOutput(solver.result, ParaVec(st, geo)), geo);
    w.(views := StoreTotals(w.views, LastTotals(st, K, geo, solver)))
  }

  /** `adjustBundle_PtLnVp` on a map value. */
  method Run(st: MapState, K: Intrinsics, geo: LmGeometry, solver: LmSolver) returns (r: MapState)
    requires RunReady(st)
    ensures r == RunSpec(st, K, geo, solver)
  {
    var para, L := BuildParaVec(st, geo);
    ParaVecLength(st, geo);
    var meas := MeasVec(st, L);
    var prev := PrevPsLoop(st.views, L.frm, L.fp, K, geo);
    var error := new real[|meas|];
    var tot := CostFun(SolverOutput(solver.lastEval, para), error, L, st, prev, K, geo);
    r := WriteBack(st, SolverOutput(solver.result, para), geo);
    r := r.(views := StoreTotals(r.views, tot));
  }

  /** After a run, the views before frontPosIdx other than the newest are as they
      were, and so are all planes. */
  lemma RunKeepsOldViews(st: MapState, K: Intrinsics, geo: LmGeometry, solver: LmSolver)
    requires RunReady(st)
    ensures var r := RunSpec(st, K, geo, solver);
            |r.views| == |st.views| && r.primaryPlanes == st.primaryPlanes &&
            forall i :: 0 <= i < LayoutOf(st).fp && i < |st.views| - 1 ==> r.views[i] == st.views[i]
  {
    ParaVecLength(st, geo);
    var w := WriteBackSpec(st, SolverOutput(solver.result, ParaVec(st, geo)), geo);
    var r := RunSpec(st, K, geo, solver);
    assert r.views == StoreTotals(w.views, LastTotals(st, K, geo, solver));
    forall i | 0 <= i < LayoutOf(st).fp && i < |st.views| - 1
      ensures r.views[i] == st.views[i]
    {
      assert r.views[i] == r.views[..|st.views| - 1][i];
    }
  }

  /** After a run, reproject-only and unadmitted points and lines are as they were. */
  lemma RunKeepsFixedLandmarks(st: MapState, K: Intrinsics, geo: LmGeometry, solver: LmSolver)
    requires RunReady(st)
    ensures LandmarksKept(st, RunSpec(st, K, geo, solver), LayoutOf(st).fp, LayoutOf(st).frm)
  {
    ParaVecLength(st, geo);
    var w := WriteBackSpec(st, SolverOutput(solver.result, ParaVec(st, geo)), geo);
    var r := RunSpec(st, K, geo, solver);
    WriteBackKeepsFixed(st, SolverOutput(solver.result, ParaVec(st, geo)), geo);
    assert r.keyPoints == w.keyPoints && r.idealLines == w.idealLines;
    KeptSameLandmarks(st, w, r, LayoutOf(st).fp, LayoutOf(st).frm);
  }

  /** The write-back leaves reproject-only and unadmitted points and lines alone. */
  lemma WriteBackKeepsFixed(st: MapState, p: seq<real>, geo: LmGeometry)
    requires |st.views| >= 1 && |p| == NumPara(LayoutOf(st)) && VpGidsValid(st)
    ensures LandmarksKept(st, WriteBackSpec(st, p, geo), LayoutOf(st).fp, LayoutOf(st).frm)
  {
  }

  lemma KeptSameLandmarks(st: MapState, w: MapState, r: MapState, fp: int, frm: int)
    requires LandmarksKept(st, w, fp, frm) && r.keyPoints == w.keyPoints && r.idealLines == w.idealLines
    ensures LandmarksKept(st, r, fp, frm)
  {
  }

  /** Points and lines that are not optimised (window front `fp`, frame `frm`) are
      the same in `r` as in `st`. */
  predicate LandmarksKept(st: MapState, r: MapState, fp: int, frm: int)
  {
    && |r.keyPoints| == |st.keyPoints| && |r.idealLines| == |st.idealLines|
    && (forall i :: 0 <= i < |st.keyPoints| && !Optimised(PointCandidates(st.keyPoints)[i], fp, frm) ==>
          r.keyPoints[i] == st.keyPoints[i])
    && (forall i :: 0 <= i < |st.idealLines| && !Optimised(LineCandidates(st.idealLines)[i], fp, frm) ==>
          r.idealLines[i] == st.idealLines[i])
  }

  /** The newest view ends up holding the totals of the last evaluation, which are
      sound for the window's measurement counts: `errAll` is `errPt + errLn`, both
      non-negative, and the means exist exactly when there is something to average. */
  lemma RunStoresTotals(st: MapState, K: Intrinsics, geo: LmGeometry, solver: LmSolver)
    requires RunReady(st)
    ensures var v := RunSpec(st, K, geo, solver).views[|st.views| - 1];
            var L := LayoutOf(st);
            TotalsSound(Totals(v.errPt, v.errLn, v.errAll, v.errPtMean, v.errLnMean), PtMeas(st, L), LnMeas(st, L))
  {
    var L := LayoutOf(st);
    ParaVecLength(st, geo);
    TotalsMeaning(st, L, SolverOutput(solver.lastEval, ParaVec(st, geo)), PrevPs(st.views, L.frm, L.fp, K, geo), K, geo);
  }
}
