/** The map object `Mfg`: the views, landmarks and planes local bundle adjustment
    reads and overwrites in place, the camera-distance log it reads, and the camera
    intrinsics.  Each of the three entry points runs one back end on the current
    map and replaces the map by the result. */
module MfgMap {
  import opened Entities
  import opened Windows
  import opened G2oGraph
  import opened G2oEdges
  import opened G2oSolve
  import opened G2oWriteBack
  import opened G2oDiag
  import G2oRun
  import opened LmLayout
  import LmRun

  class Mfg {
    var views: seq<View>
    var keyPoints: seq<KeyPoint3d>
    var vanishingPoints: seq<VanishingPoint>
    var idealLines: seq<IdealLine3d>
    var primaryPlanes: seq<PrimaryPlane>
    var camdist: seq<CamDist>
    var K: Intrinsics

    constructor (st: MapState, log: seq<CamDist>, intrinsics: Intrinsics)
      ensures State() == st && camdist == log && K == intrinsics
    {
      views, keyPoints, vanishingPoints, idealLines, primaryPlanes := st.views, st.keyPoints, st.vanishingPoints, st.idealLines, st.primaryPlanes;
      camdist, K := log, intrinsics;
    }

    /** The map as a value. */
    function State(): MapState
      reads this
    {
      MapState(views, keyPoints, vanishingPoints, idealLines, primaryPlanes)
    }

    /** Replaces the map by `st`; the log and the intrinsics stay. */
    method SetState(st: MapState)
      modifies this
      ensures State() == st && camdist == old(camdist) && K == old(K)
    {
      views, keyPoints, vanishingPoints, idealLines, primaryPlanes := st.views, st.keyPoints, st.vanishingPoints, st.idealLines, st.primaryPlanes;
    }

    /** The window `adjustBundle_G2O(numPos, numFrm)` computes from the current map. */
    function G2oWindowNow(numPos: int, numFrm: int, s: Settings): Window
      reads this
      requires |views| >= 1
    {
      G2oWindow(|views|, views[|views| - 1].id, numPos, numFrm, s.numVpFrm)
    }

    /** `Mfg::adjustBundle_G2O`: on success the map becomes the run's result; a failed
        run (the source exits) reports its error and leaves the map as it was. */
    method AdjustBundleG2O(numPos: int, numFrm: int, s: Settings, opt: Optimizer, geo: Geometry, cm: CostModel)
      returns (err: Option<BuildError>)
      requires |views| >= 1 && G2oRun.RunReady(State(), G2oWindowNow(numPos, numFrm, s))
      modifies this
      ensures var spec := G2oRun.RunSpec(old(State()), old(camdist), old(G2oWindowNow(numPos, numFrm, s)), s, opt, geo, cm);
              (spec.Success? ==> err == None && State() == spec.value) &&
              (spec.Failure? ==> err == Some(spec.error) && State() == old(State()))
      ensures camdist == old(camdist) && K == old(K)
    {
      var r := G2oRun.Run(State(), camdist, G2oWindowNow(numPos, numFrm, s), s, opt, geo, cm);
      if r.Failure? {
        return Some(r.error);
      }
      SetState(r.value);
      err := None;
    }

    /** `Mfg::bundle_adjust_between(view_from, view_to, cam_from)`, likewise. */
    method BundleAdjustBetween(viewFrom: int, viewTo: int, camFrom: int, s: Settings, opt: Optimizer, geo: Geometry, cm: CostModel)
      returns (err: Option<BuildError>)
      requires G2oRun.RunReady(State(), BetweenWindow(viewFrom, viewTo, camFrom))
      modifies this
      ensures var spec := G2oRun.RunSpec(old(State()), old(camdist), BetweenWindow(viewFrom, viewTo, camFrom), s, opt, geo, cm);
              (spec.Success? ==> err == None && State() == spec.value) &&
              (spec.Failure? ==> err == Some(spec.error) && State() == old(State()))
      ensures camdist == old(camdist) && K == old(K)
    {
      var r := G2oRun.Run(State(), camdist, BetweenWindow(viewFrom, viewTo, camFrom), s, opt, geo, cm);
      if r.Failure? {
        return Some(r.error);
      }
      SetState(r.value);
      err := None;
    }

    /** `Mfg::adjustBundle_PtLnVp`: the map becomes the Levenberg-Marquardt run's result. */
    method AdjustBundlePtLnVp(geo: LmGeometry, solver: LmRun.LmSolver)
      requires LmRun.RunReady(State())
      modifies this
      ensures State() == LmRun.RunSpec(old(State()), old(K), geo, solver)
      ensures camdist == old(camdist) && K == old(K)
    {
      var r := LmRun.Run(State(), K, geo, solver);
      SetState(r);
    }
  }
}
