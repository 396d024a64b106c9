/** Sliding-window boundaries of local bundle adjustment (the three boundary
    indices `frontVptIdx <= frontFrmIdx <= frontPosIdx` into the view list)
    and the window records the two g2o entry points hand to the shared
    problem builder. */
module Windows {
  import opened SeqUtil

  /** First view whose pose is optimised: `max(1, n - numPos)`. */
  function FrontPosIdx(n: int, numPos: int): int { Max(1, n - numPos) }

  /** First view that contributes reprojection residuals: `max(0, n - numFrm)`. */
  function FrontFrmIdx(n: int, numFrm: int): int { Max(0, n - numFrm) }

  /** First view that contributes vanishing-point residuals, clamped to frontFrmIdx. */
  function FrontVptIdx(n: int, numFrm: int, numVpFrm: int): int
  {
    Min(FrontFrmIdx(n, numFrm), Max(0, n - numVpFrm))
  }

  /** The boundaries always satisfy 0 <= frontVptIdx <= frontFrmIdx and frontPosIdx >= 1;
      frontFrmIdx <= frontPosIdx whenever numFrm >= numPos. */
  lemma WindowOrder(n: int, numPos: int, numFrm: int, numVpFrm: int)
    ensures 0 <= FrontVptIdx(n, numFrm, numVpFrm) <= FrontFrmIdx(n, numFrm)
    ensures FrontPosIdx(n, numPos) >= 1
    ensures numFrm >= numPos ==> FrontFrmIdx(n, numFrm) <= FrontPosIdx(n, numPos)
    ensures n >= 1 && numPos >= 0 ==> FrontPosIdx(n, numPos) <= n
  {
  }

  /** What the shared g2o builder needs to know about one call.
      Cameras get vertices for views [camLo, camHi); poses from frontPosIdx on are free;
      reprojection residuals come from views >= frontFrmIdx and vanishing-point residuals
      from views >= frontVptIdx; the newest `distSpan` camera-distance entries are
      consulted; `refId` is the view id landmark staleness and plane age are measured
      against; `lineFixHonoursDist` says whether an active distance constraint also
      unfixes old lines; `distIters` is the iteration budget once a distance edge exists;
      `storesDiagnostics` says whether the cost totals are written to the newest view. */
  datatype Window = Window(
    camLo: int, camHi: int,
    frontPosIdx: int, frontFrmIdx: int, frontVptIdx: int,
    distSpan: int, refId: int,
    lineFixHonoursDist: bool, distIters: int, storesDiagnostics: bool)

  /** The window of `Mfg::adjustBundle_G2O(numPos, numFrm)` over n views whose newest id is `lastId`. */
  function G2oWindow(n: int, lastId: int, numPos: int, numFrm: int, numVpFrm: int): (w: Window)
    ensures w.camLo == w.frontVptIdx && w.camHi == n
    ensures 0 <= w.frontVptIdx <= w.frontFrmIdx && w.frontPosIdx >= 1
    ensures numFrm >= numPos ==> w.frontFrmIdx <= w.frontPosIdx
  {
    WindowOrder(n, numPos, numFrm, numVpFrm);
    Window(FrontVptIdx(n, numFrm, numVpFrm), n,
           FrontPosIdx(n, numPos), FrontFrmIdx(n, numFrm), FrontVptIdx(n, numFrm, numVpFrm),
           numFrm, lastId, false, 20, true)
  }

  /** The window of `Mfg::bundle_adjust_between(viewFrom, viewTo, camFrom)`. */
  function BetweenWindow(viewFrom: int, viewTo: int, camFrom: int): (w: Window)
    ensures w.camLo == w.frontVptIdx == w.frontFrmIdx == viewFrom
    ensures w.camHi == viewTo + 1 && w.frontPosIdx == camFrom && w.refId == viewTo
    ensures w.distIters >= 20 && w.distIters >= viewTo - viewFrom
  {
    Window(viewFrom, viewTo + 1, camFrom, viewFrom, viewFrom,
           viewTo - viewFrom, viewTo, true, Max(20, viewTo - viewFrom), false)
  }

  /** The Levenberg-Marquardt back end fixes numPos = 3 and numFrm = 5. */
  const LmNumPos := 3
  const LmNumFrm := 5

  function LmFrontPosIdx(n: int): int { FrontPosIdx(n, LmNumPos) }
  function LmFrontFrmIdx(n: int): int { FrontFrmIdx(n, LmNumFrm) }

  /** With the constants of the Levenberg-Marquardt back end,
      frontPosIdx = max(1, n-3), frontFrmIdx = max(0, n-5), and frontFrmIdx <= frontPosIdx <= n. */
  lemma LmWindow(n: int)
    requires n >= 1
    ensures LmFrontPosIdx(n) == (if n - 3 >= 1 then n - 3 else 1)
    ensures LmFrontFrmIdx(n) == (if n - 5 >= 0 then n - 5 else 0)
    ensures 0 <= LmFrontFrmIdx(n) <= LmFrontPosIdx(n) <= n
  {
  }
}
