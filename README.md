# Windowed local bundle adjustment of a multi-feature map

This project models the bookkeeping around local bundle adjustment in the map object
`Mfg` of a monocular SLAM system whose landmarks are key points, ideal (infinite) lines,
vanishing points and primary planes. It models the two back ends:

* **g2o back end.** `Mfg::adjustBundle_G2O(numPos, numFrm)` and `Mfg::bundle_adjust_between(view_from, view_to, cam_from)`:
  * compute a window of views;
  * add one camera vertex per windowed view;
  * add distance edges from the camera-distance log, and unpin the cameras once such an edge exists;
  * admit points, vanishing points, lines and planes as vertices, each pinned or free;
  * add one edge per qualifying observation and per plane member. An edge whose endpoint has no vertex stops the run;
  * optimise in five rounds of information-boosted distance constraints, or once;
  * write the free vertices back into the map;
  * compute the per-group robust errors, which `adjustBundle_G2O` stores on the newest view.
* **Levenberg-Marquardt back end.** `Mfg::adjustBundle_PtLnVp` and its cost function `costFun_BA_PtLnVp`:
  * lay out the parameter vector: poses from frontPosIdx on (six slots for view 1, seven otherwise), optimised points, every vanishing point, optimised line mid-points;
  * lay out a measurement vector of zeros;
  * build the projection matrices of the fixed views;
  * fill the residual buffer: robustified point residual pairs, then two robustified residuals per line segment (the `LNERR_SAMPLE` variant that the file selects);
  * sum the squares into the totals and means;
  * write the solved vector back into the map, and store the totals on the newest view.

Numerical geometry is opaque: projection, rotation conversions, robust kernels and the solvers
themselves. These are function-valued fields of small datatypes (`Geometry`, `Optimizer`, `CostModel`,
`LmGeometry`, `LmSolver`). The proofs are about what the code decides discretely:
* which entities get a vertex or a parameter slot, and whether they are pinned;
* which observations yield residuals, and in what order;
* where each value sits in the parameter vector;
* which map entries change;
* what the stored errors mean.

Modules follow the program's structure:
* `Entities`: the map records;
* `Windows`: the window boundaries;
* `G2oGraph`, `G2oEdges`, `G2oBuild`, `G2oProblem`: vertex and edge construction;
* `G2oSolve`: the staged optimisation;
* `G2oWriteBack`: the write-back;
* `G2oDiag`: the error summary;
* `G2oRun`: a whole g2o run;
* `LmLayout`: parameter and measurement layout;
* `LmCost`: the cost function;
* `LmRun`: the LM driver and write-back;
* `MfgMap`: the class `Mfg`, whose methods update its fields in place;
* `SeqUtil`: selection and rank over flag sequences, and sums.

Where the code differs from the design it documents, the model follows the code:
* The g2o window is computed from `views.size()`, not from the newest view's id.
* After a distance edge is added, every camera vertex but the window's first is unfixed. The camera kept fixed is the one at frontVptIdx, not necessarily view 0.
* `bundle_adjust_between` visits the newest `view_to - view_from` log entries and camera views up to and including `view_to`.
* In `bundle_adjust_between`, lines heed distance edges, while in `adjustBundle_G2O` they do not. For points, both functions do.
* The Levenberg-Marquardt back end admits points and lines without checking their global id.

## Model

Paths are relative to the repository root.

| member | source | states |
|---|---|---|
| Windows.WindowOrder | src/mfgcore/mfg-ba-g2o.cpp:1051-1054 | 0 <= frontVptIdx <= frontFrmIdx and frontPosIdx >= 1; frontFrmIdx <= frontPosIdx when numFrm >= numPos; frontPosIdx <= n |
| Windows.G2oWindow | src/mfgcore/mfg-ba-g2o.cpp:1051-1065 | the camera window runs from frontVptIdx to the last view; the boundaries are ordered as above |
| Windows.BetweenWindow | src/mfgcore/mfg-ba-g2o.cpp:115-124 | cameras span [view_from, view_to], frontFrmIdx = frontVptIdx = view_from, frontPosIdx = cam_from, planes are aged against view_to |
| Windows.LmWindow | src/mfg-ba-ptlnvp.cpp:220-237 | with numPos = 3 and numFrm = 5: frontPosIdx = max(1, n-3), frontFrmIdx = max(0, n-5), and 0 <= frontFrmIdx <= frontPosIdx <= n |
| G2oGraph.CamVertices | src/mfgcore/mfg-ba-g2o.cpp:1065-1085 | one camera vertex per windowed view |
| G2oGraph.CamFid2Vid | src/mfgcore/mfg-ba-g2o.cpp:1081-1082 | camfid2vid maps exactly the windowed views, view i to vertex i - camLo |
| G2oGraph.CamVid2Fid | src/mfgcore/mfg-ba-g2o.cpp:1081-1082 | camvid2fid maps exactly vertex ids 0..count-1, vertex k to view camLo + k |
| G2oGraph.DistEdges | src/mfgcore/mfg-ba-g2o.cpp:1090-1122 | at most one distance edge per consulted log entry |
| G2oGraph.DistEdgesFromWindow | src/mfgcore/mfg-ba-g2o.cpp:1090-1094 | every distance edge comes from a consulted entry both of whose views have a camera vertex, and one exists iff some consulted entry is usable |
| G2oGraph.Unfix | src/mfgcore/mfg-ba-g2o.cpp:1124-1132 | unfixing keeps the number of camera vertices |
| G2oGraph.CamFixedRule | src/mfgcore/mfg-ba-g2o.cpp:1077-1132 | camera vertex k stands for view camLo + k; it is fixed iff (view < 1 or view < frontPosIdx) and (no distance edge or k = 0) |
| G2oGraph.PointLandmarks | src/mfgcore/mfg-ba-g2o.cpp:1145-1147 | one landmark per key point; only triangulated points with a global id are eligible |
| G2oGraph.LineLandmarks | src/mfgcore/mfg-ba-g2o.cpp:1219-1221 | one landmark per ideal line; only triangulated lines with a global id are eligible |
| G2oGraph.VpLandmarks | src/mfgcore/mfg-ba-g2o.cpp:1186-1190 | one landmark per vanishing point, each eligible |
| G2oGraph.LandmarkStage | src/mfgcore/mfg-ba-g2o.cpp:1143-1181 | each vertex has the stage's kind, no more vertices than entities, the optimised and reproject-only lists split the vertices and hold entity indices |
| G2oGraph.LandmarkStageVids | src/mfgcore/mfg-ba-g2o.cpp:1173-1178 | vid2gid holds exactly the new vertex ids base .. base + count - 1, the k-th naming the entity of the k-th new vertex |
| G2oGraph.AdmitFlags | src/mfgcore/mfg-ba-g2o.cpp:1147-1151 | flag i holds iff entity i is eligible and observed at or after frontPosIdx |
| G2oGraph.OptFlags | src/mfgcore/mfg-ba-g2o.cpp:1159-1172 | flag i holds iff entity i is admitted and not pinned |
| G2oGraph.RpjFlags | src/mfgcore/mfg-ba-g2o.cpp:1159-1166 | flag i holds iff entity i is admitted and pinned (first seen before frontFrmIdx, estimated before the reference view, and no distance edge for points) |
| G2oGraph.LandmarkStageLists | src/mfgcore/mfg-ba-g2o.cpp:1165-1171 | kptIdx2Opt and kptIdx2Rpj_notOpt (and the line lists) are exactly the optimised and the reproject-only entities in index order |
| G2oGraph.LandmarkStageVerts | src/mfgcore/mfg-ba-g2o.cpp:1155-1178 | the k-th new vertex stands for the k-th admitted entity and is fixed iff that entity is pinned |
| G2oGraph.LandmarkStageKeys | src/mfgcore/mfg-ba-g2o.cpp:1175-1176 | only admitted entities appear in gid2vid |
| G2oGraph.LandmarkStageTable | src/mfgcore/mfg-ba-g2o.cpp:1175-1176 | every admitted entity is in gid2vid, mapped to base plus its rank among admitted entities |
| G2oGraph.LandmarkVertexOf | src/mfgcore/mfg-ba-g2o.cpp:1155-1178 | an admitted entity's vertex is the one at its rank, and it stands for that entity |
| G2oGraph.StageVertexAt | src/mfgcore/mfg-ba-g2o.cpp:1175-1178 | entity i has a table entry iff it is admitted, and the entry names a vertex standing for i |
| G2oGraph.LandmarkTablePointsInto | src/mfgcore/mfg-ba-g2o.cpp:1175-1177 | every gid2vid entry names one of the stage's own vertices, standing for the key |
| G2oGraph.PlaneStage | src/mfgcore/mfg-ba-g2o.cpp:1255-1299 | one vertex per entry of plIdx2Opt, no more than there are planes, with plane indices in the list and no reproject-only planes |
| G2oGraph.PlaneStageVerts | src/mfgcore/mfg-ba-g2o.cpp:1280-1296 | the k-th plane vertex stands for the k-th plIdx2Opt plane and is fixed iff that plane's estViewId < frontPosIdx |
| G2oGraph.PlaneStageVids | src/mfgcore/mfg-ba-g2o.cpp:1292-1297 | plvid2gid holds exactly the new vertex ids, the k-th naming the k-th plIdx2Opt plane |
| G2oGraph.PlaneFlags | src/mfgcore/mfg-ba-g2o.cpp:1259-1281 | flag i holds iff plane i is at least three views old and lists a point or line with a vertex |
| G2oGraph.PlaneStageLists | src/mfgcore/mfg-ba-g2o.cpp:1255-1299 | plIdx2Opt is exactly the admitted plane indices in order |
| G2oGraph.PlaneStageTable | src/mfgcore/mfg-ba-g2o.cpp:1293-1296 | plgid2vid maps exactly the admitted planes, each to base plus its rank |
| G2oGraph.PlaneTablePointsInto | src/mfgcore/mfg-ba-g2o.cpp:1293-1296 | every plgid2vid entry names a plane vertex of the stage standing for the key |
| G2oEdges.VpCov | src/mfgcore/mfg-ba-g2o.cpp:1447-1451 | the vanishing-point covariance is diagonal, with entries max(c00, 1e-3) and max(c11, 1e-3) |
| G2oEdges.DiagonalInverse | src/mfgcore/mfg-ba-g2o.cpp:1452 | that covariance is invertible, with the reciprocal diagonal as its inverse |
| G2oEdges.VpInfoDiagonal | src/mfgcore/mfg-ba-g2o.cpp:1447-1452 | the information is diag(w / max(c00, 1e-3), w / max(c11, 1e-3)), each entry in [0, 1000 w] |
| G2oEdges.ObsRequest | src/mfgcore/mfg-ba-g2o.cpp:1320-1337 | an observation edge joins the landmark's vertex (first) and the observing camera (last) |
| G2oEdges.ObsRequests | src/mfgcore/mfg-ba-g2o.cpp:1310-1352 | at most one edge per observation, each from a matchable view at or after the threshold |
| G2oEdges.QualFlags | src/mfgcore/mfg-ba-g2o.cpp:1316-1318 | an observation qualifies iff its view is matchable and at or after the threshold |
| G2oEdges.ObsRequestsExact | src/mfgcore/mfg-ba-g2o.cpp:1310-1352 | the edges of a landmark are exactly one per qualifying observation, in observation order |
| G2oEdges.LandmarkRequests | src/mfgcore/mfg-ba-g2o.cpp:1308-1400 | every edge of a landmark list names a listed landmark and a camera of a qualifying observation |
| G2oEdges.MemberPointRequests | src/mfgcore/mfg-ba-g2o.cpp:1589-1627 | one point-plane edge per member point with a vertex |
| G2oEdges.MemberLineRequests | src/mfgcore/mfg-ba-g2o.cpp:1630-1682 | one line-plane edge per member line with a vertex, also naming that line's vanishing point |
| G2oEdges.PlanePointRequests | src/mfgcore/mfg-ba-g2o.cpp:1584-1627 | every point-plane edge joins an admitted plane and one of its member points with a vertex |
| G2oEdges.PlaneLineRequests | src/mfgcore/mfg-ba-g2o.cpp:1584-1682 | every line-plane edge joins an admitted plane, one of its member lines with a vertex, and the line's vanishing point |
| G2oEdges.ResolveAllSpec | src/mfgcore/mfg-ba-g2o.cpp:1320-1337 | adding the edges succeeds iff every endpoint of every edge has a vertex and no line-plane edge lacks a kernel; then edge k is request k bound to the looked-up ids |
| G2oEdges.AsWrittenBindsToVertexZero | src/mfgcore/mfg-ba-g2o.cpp:1489-1496 | as written, a missing key is bound to vertex 0 without stopping, where the corrected look-up fails |
| G2oEdges.LineEdgeWithoutVanishingPoint | src/mfgcore/mfg-ba-g2o.cpp:1489-1496 | a concrete line edge whose vanishing point has no vertex is bound, as written, to camera vertex 0 |
| G2oBuild.AddCameraVertices | src/mfgcore/mfg-ba-g2o.cpp:1065-1085 | the camera loop yields CamVertices and both camera tables |
| G2oBuild.CamTablesInverse | src/mfgcore/mfg-ba-g2o.cpp:1081-1082 | camfid2vid and camvid2fid are mutually inverse |
| G2oBuild.SelectDistEdges | src/mfgcore/mfg-ba-g2o.cpp:1090-1122 | the log loop, newest first, yields DistEdges over the newest numFrm entries |
| G2oBuild.UnfixCameras | src/mfgcore/mfg-ba-g2o.cpp:1124-1132 | the unfix loop yields Unfix |
| G2oBuild.SeenFromSearch | src/mfgcore/mfg-ba-g2o.cpp:1147-1151 | the observation loop with its break finds an observation at or after the view iff one exists |
| G2oBuild.AddLandmarkVertices | src/mfgcore/mfg-ba-g2o.cpp:1143-1181 | the admission loop yields LandmarkStage, and vertex_id advances by its vertex count |
| G2oBuild.AnyInSearch | src/mfgcore/mfg-ba-g2o.cpp:1263-1270 | the member search finds a listed id with a table entry iff one exists |
| G2oBuild.AddPlaneVertices | src/mfgcore/mfg-ba-g2o.cpp:1255-1299 | the plane loop yields PlaneStage, and vertex_id advances by its vertex count |
| G2oBuild.ObsEdgesOf | src/mfgcore/mfg-ba-g2o.cpp:1310-1352 | the inner observation loop yields ObsRequests |
| G2oBuild.EnumerateObsEdges | src/mfgcore/mfg-ba-g2o.cpp:1308-1352 | the nested loop over a landmark list yields LandmarkRequests |
| G2oBuild.PointPlaneEdgesOf | src/mfgcore/mfg-ba-g2o.cpp:1589-1627 | the point-plane loop yields MemberPointRequests |
| G2oBuild.LinePlaneEdgesOf | src/mfgcore/mfg-ba-g2o.cpp:1630-1682 | the line-plane loop yields MemberLineRequests |
| G2oBuild.EnumeratePlaneEdges | src/mfgcore/mfg-ba-g2o.cpp:1584-1684 | the plane loop yields both plane edge lists |
| G2oBuild.ResolveRequest | src/mfgcore/mfg-ba-g2o.cpp:1320-1337 | one edge's look-ups, stopping at the first missing vertex, equal Resolve |
| G2oBuild.ResolveAllFailureSticks | src/mfgcore/mfg-ba-g2o.cpp:1324-1328 | a failure in a prefix of an edge list is the failure of the whole list |
| G2oBuild.ResolveEdges | src/mfgcore/mfg-ba-g2o.cpp:1308-1352 | adding an edge list in order equals ResolveAll |
| G2oProblem.LandmarkSpec | src/mfgcore/mfg-ba-g2o.cpp:1137-1250 | every line with a vertex indexes an existing line |
| G2oProblem.VertexSpec | src/mfgcore/mfg-ba-g2o.cpp:1058-1299 | every index list holds indices of existing entities |
| G2oProblem.BuildCameras | src/mfgcore/mfg-ba-g2o.cpp:1065-1132 | the camera stage, built imperatively, equals its specification |
| G2oProblem.BuildLandmarks | src/mfgcore/mfg-ba-g2o.cpp:1137-1250 | the four landmark stages, with vertex ids running on from the cameras, equal their specification |
| G2oProblem.BuildVertices | src/mfgcore/mfg-ba-g2o.cpp:1058-1299 | all vertices, in the source's insertion order, equal VertexSpec |
| G2oProblem.BuildRequests | src/mfgcore/mfg-ba-g2o.cpp:1301-1684 | the edge lists, in the source's order, equal their specification |
| G2oProblem.BuildProblem | src/mfgcore/mfg-ba-g2o.cpp:1058-1684 | the whole graph construction equals BuildSpec |
| G2oProblem.VertexTables | src/mfgcore/mfg-ba-g2o.cpp:1081-1296 | each id table maps a key to the vertex of its kind that stands for that key |
| G2oProblem.CameraVertexRule | src/mfgcore/mfg-ba-g2o.cpp:1077-1132 | camera vertex k is view camLo + k, fixed iff pinned by the window and not unfixed by a distance edge |
| G2oProblem.PointVertexRule | src/mfgcore/mfg-ba-g2o.cpp:1143-1181 | point i has a vertex iff it is triangulated, registered and observed at or after frontPosIdx; the vertex is fixed iff the point is pinned |
| G2oProblem.VpVertexRule | src/mfgcore/mfg-ba-g2o.cpp:1186-1208 | a vanishing point has a vertex iff it is observed at or after frontPosIdx, and that vertex is never fixed |
| G2oProblem.LineVertexRule | src/mfgcore/mfg-ba-g2o.cpp:1210-1250 | line i has a mid-point vertex iff it is triangulated, registered and observed at or after frontPosIdx; fixed iff pinned |
| G2oProblem.PlaneVertexRule | src/mfgcore/mfg-ba-g2o.cpp:1255-1299 | plane i has a vertex iff it is old enough and lists a member with a vertex; fixed iff estViewId < frontPosIdx |
| G2oProblem.ResolvedEdgesName | src/mfgcore/mfg-ba-g2o.cpp:1320-1337 | every resolved edge binds each endpoint to the vertex standing for its key |
| G2oProblem.BuildEdgesName | src/mfgcore/mfg-ba-g2o.cpp:1301-1684 | every edge of a built graph binds each endpoint to the vertex of its key's kind standing for that key |
| G2oProblem.BuildSucceedsIff | src/mfgcore/mfg-ba-g2o.cpp:1301-1684 | building succeeds exactly when every requested endpoint has a vertex and every line-plane edge has a kernel |
| G2oSolve.Moved | src/mfgcore/mfg-ba-g2o.cpp:1693-1704 | a fixed vertex keeps its estimate; a free one takes the proposed estimate of its own shape; kind, entity and flag are kept |
| G2oSolve.Boosted | src/mfgcore/mfg-ba-g2o.cpp:1699-1700 | boosting keeps the number of distance edges |
| G2oSolve.Solve | src/mfgcore/mfg-ba-g2o.cpp:1693-1704 | the solve loop (five rounds with distance edges, otherwise one call) equals SolveSpec |
| G2oSolve.RoundsKeep | src/mfgcore/mfg-ba-g2o.cpp:1695-1701 | after k rounds, vertices keep kind, entity and flag, fixed vertices are unmoved, and observation edges are unchanged |
| G2oSolve.SolveKeeps | src/mfgcore/mfg-ba-g2o.cpp:1693-1704 | the solve stage moves only free vertices and changes no edge but the distance edges' information |
| G2oSolve.RoundInput | src/mfgcore/mfg-ba-g2o.cpp:1695-1700 | round k + 1 hands the optimiser distance edges whose information is 100^k times the logged one |
| G2oWriteBack.ApplyVertex | src/mfgcore/mfg-ba-g2o.cpp:1714-1803 | writing one vertex back keeps collection lengths and line-VP links |
| G2oWriteBack.WriteBackSpec | src/mfgcore/mfg-ba-g2o.cpp:1714-1803 | the whole write-back keeps collection lengths and line-VP links |
| G2oWriteBack.WriteBack | src/mfgcore/mfg-ba-g2o.cpp:1714-1803 | the write-back loops equal WriteBackSpec |
| G2oWriteBack.ApplyVertexFrame | src/mfgcore/mfg-ba-g2o.cpp:1714-1803 | one vertex changes only the entry it stands for |
| G2oWriteBack.WriteBackFrame | src/mfgcore/mfg-ba-g2o.cpp:1716-1790 | an entry that no free vertex stands for is left as it was |
| G2oWriteBack.WriteBackSingle | src/mfgcore/mfg-ba-g2o.cpp:1721-1802 | the free vertex of an entry is the only one that writes it |
| G2oWriteBack.WriteBackValue | src/mfgcore/mfg-ba-g2o.cpp:1721-1802 | a free camera, point or vanishing-point vertex leaves its entry holding the vertex's estimate; a free plane takes the unit normal and distance `planeOf` gives for its estimate (1798-1801) |
| G2oWriteBack.WriteBackLine | src/mfgcore/mfg-ba-g2o.cpp:1779-1785 | a free line ends with its solved mid-point projected onto itself and its vanishing point's final direction |
| G2oDiag.Shares | src/mfgcore/mfg-ba-g2o.cpp:1809-1816 | one share per edge of a group |
| G2oDiag.GroupCostSum | src/mfgcore/mfg-ba-g2o.cpp:1809-1850 | a group's error is defined iff every counted edge has a kernel, and then it is the sum of the shares |
| G2oDiag.FixedEdgeAddsNothing | src/mfgcore/mfg-ba-g2o.cpp:1811 | an edge whose vertices are all fixed leaves its group's error as it is |
| G2oDiag.GroupCostNonNegative | src/mfgcore/mfg-ba-g2o.cpp:1809-1816 | with non-negative robust values, a group error is non-negative |
| G2oDiag.GroupCostLoop | src/mfgcore/mfg-ba-g2o.cpp:1809-1850 | the accumulation loop equals GroupCost |
| G2oDiag.GroupFailureSticks | src/mfgcore/mfg-ba-g2o.cpp:1815 | once a prefix meets a missing kernel, the group fails with that error |
| G2oDiag.ComputeErrors | src/mfgcore/mfg-ba-g2o.cpp:1807-1953 | the five accumulation loops equal ErrorsSpec |
| G2oDiag.ErrorsIff | src/mfgcore/mfg-ba-g2o.cpp:1807-1956 | the summary exists iff all counted edges of the five groups have kernels; plane error = point-plane plus line-plane |
| G2oDiag.StoreErrors | src/mfgcore/mfg-ba-g2o.cpp:1956-1959 | only the newest view changes, taking errAll, errPt, errLn and errPl |
| G2oRun.SolvedVertices | src/mfgcore/mfg-ba-g2o.cpp:1693-1704 | the solved vertices are the built ones moved only where free, and can be written back |
| G2oRun.WrittenBack | src/mfgcore/mfg-ba-g2o.cpp:1710-1805 | the written-back map keeps collection lengths and line-VP links |
| G2oRun.Run | src/mfgcore/mfg-ba-g2o.cpp:1023-1961 | a whole run (build, solve, write back, errors, store) equals RunSpec |
| G2oRun.EntityKept | src/mfgcore/mfg-ba-g2o.cpp:1714-1803 | after a run, a map entry without a free vertex is unchanged |
| G2oRun.EntityMoved | src/mfgcore/mfg-ba-g2o.cpp:1721-1802 | the entry of a free vertex takes that vertex's solved estimate, a plane through the `planeOf` conversion |
| G2oRun.LineMoved | src/mfgcore/mfg-ba-g2o.cpp:1779-1785 | a line with a free vertex takes its solved mid-point and its vanishing point's final direction |
| G2oRun.ViewMoves | src/mfgcore/mfg-ba-g2o.cpp:1065-1132 | a view moves iff it is windowed and not pinned |
| G2oRun.PointMoves | src/mfgcore/mfg-ba-g2o.cpp:1143-1181 | a point moves iff it is admitted and not pinned |
| G2oRun.VpMoves | src/mfgcore/mfg-ba-g2o.cpp:1186-1208 | a vanishing point moves iff it is observed at or after frontPosIdx |
| G2oRun.LineMoves | src/mfgcore/mfg-ba-g2o.cpp:1210-1250 | a line moves iff it is admitted and not pinned |
| G2oRun.PlaneMoves | src/mfgcore/mfg-ba-g2o.cpp:1255-1299 | a plane moves iff it has a vertex and estViewId >= frontPosIdx |
| LmLayout.PoseSpanClosed | src/mfg-ba-ptlnvp.cpp:238-254 | the poses of views [fp, hi) take 7 (hi - fp) slots, one fewer when view 1 is among them |
| LmLayout.PoseBlock | src/mfg-ba-ptlnvp.cpp:239-253 | a pose takes 6 slots for view 1 and 7 otherwise |
| LmLayout.PoseParasLayout | src/mfg-ba-ptlnvp.cpp:238-254 | view i's pose block sits at offset PoseSpan(fp, i) |
| LmLayout.TriplesAt | src/mfg-ba-ptlnvp.cpp:268-270 | vector k of a triple block sits at slots [3k, 3k + 3) |
| LmLayout.PointCandidates | src/mfg-ba-ptlnvp.cpp:259-262 | a key point is seen through its triangulation flag, observations and position |
| LmLayout.LineCandidates | src/mfg-ba-ptlnvp.cpp:286-289 | an ideal line is seen through its triangulation flag, observations and mid-point |
| LmLayout.OptFlags | src/mfg-ba-ptlnvp.cpp:262-271 | flag i holds iff candidate i is admitted and first observed at or after frontFrmIdx |
| LmLayout.RpjFlags | src/mfg-ba-ptlnvp.cpp:262-266 | flag i holds iff candidate i is admitted and first observed before frontFrmIdx |
| LmLayout.Classification | src/mfg-ba-ptlnvp.cpp:259-276 | an admitted landmark is in exactly one of the two lists, chosen by its first observation; unadmitted ones in neither |
| LmLayout.Positions | src/mfg-ba-ptlnvp.cpp:268-270 | the k-th listed position is that of the k-th listed landmark |
| LmLayout.VpPositions | src/mfg-ba-ptlnvp.cpp:278-282 | every vanishing point's position, in order |
| LmLayout.LayoutOf | src/mfg-ba-ptlnvp.cpp:236-301 | the window matches LmWindow and every index list holds indices of existing entities |
| LmLayout.ParaVecLength | src/mfg-ba-ptlnvp.cpp:303-307 | numPara = pose slots + 3 per optimised point + 3 per vanishing point + 3 per optimised line |
| LmLayout.ParaVecParts | src/mfg-ba-ptlnvp.cpp:234-301 | the vector is poses, then point triples, then vanishing-point triples, then line triples |
| LmLayout.DecodeEncodePose | src/mfg-ba-ptlnvp.cpp:47-61 | the cost function's read of the initial vector gives each optimised view's encoded rotation and translation (or angles, for view 1) |
| LmLayout.DecodeEncodePoint | src/mfg-ba-ptlnvp.cpp:80 | the cost function reads the k-th optimised point's stored position |
| LmLayout.DecodeEncodeVp | src/mfg-ba-ptlnvp.cpp:113-117 | the cost function reads every vanishing point's stored position |
| LmLayout.DecodeEncodeLine | src/mfg-ba-ptlnvp.cpp:121-123 | the cost function reads the k-th optimised line's stored mid-point |
| LmLayout.PushPoses | src/mfg-ba-ptlnvp.cpp:238-254 | the pose loop yields PoseParas |
| LmLayout.Classify | src/mfg-ba-ptlnvp.cpp:259-276 | the admission loop yields exactly the two ordered lists and the optimised positions |
| LmLayout.PushVps | src/mfg-ba-ptlnvp.cpp:278-282 | the vanishing-point loop yields every position, in order |
| LmLayout.BuildParaVec | src/mfg-ba-ptlnvp.cpp:234-307 | the driver's loops yield ParaVec and the layout LayoutOf |
| LmLayout.PointMeasLoop | src/mfg-ba-ptlnvp.cpp:311-326 | two zero measurements per listed point's observation at or after frontFrmIdx |
| LmLayout.LineMeasLoop | src/mfg-ba-ptlnvp.cpp:328-349 | one zero measurement per stored endpoint of each listed line's observation at or after frontFrmIdx |
| LmLayout.MeasVec | src/mfg-ba-ptlnvp.cpp:310-355 | measVec is numMeas zeros |
| LmCost.PrevPs | src/mfg-ba-ptlnvp.cpp:370-376 | prevPs holds K [R\|t] of each view in [frontFrmIdx, frontPosIdx), in order |
| LmCost.PrevPsLoop | src/mfg-ba-ptlnvp.cpp:370-376 | the driver's loop yields PrevPs |
| LmCost.ProjSpec | src/mfg-ba-ptlnvp.cpp:39-67 | one projection slot per view |
| LmCost.PrevPsFill | src/mfg-ba-ptlnvp.cpp:41-46 | with the driver's prevPs, Ps[0] = K [I\|0], fixed views in range are K [R\|t], and views before frontFrmIdx have no projection |
| LmCost.DecodePoses | src/mfg-ba-ptlnvp.cpp:39-67 | the pose loops yield ProjSpec, and pidx ends where the points begin |
| LmCost.DecodeVps | src/mfg-ba-ptlnvp.cpp:112-117 | every vanishing point is read at its offset, and pidx ends where the lines begin |
| LmCost.PointObsC | src/mfg-ba-ptlnvp.cpp:76-90 | two residuals per pushed point square |
| LmCost.PointsC | src/mfg-ba-ptlnvp.cpp:74-110 | two residuals per pushed point square |
| LmCost.OptPointItems | src/mfg-ba-ptlnvp.cpp:74-92 | optimised point k is projected from its parameter triple |
| LmCost.RpjPointItems | src/mfg-ba-ptlnvp.cpp:93-99 | reproject-only points are projected from their stored position |
| LmCost.SegC | src/mfg-ba-ptlnvp.cpp:132-143 | two residuals and two squares per segment |
| LmCost.LineObsC | src/mfg-ba-ptlnvp.cpp:124-156 | one square per line residual, and an even count of residuals |
| LmCost.LinesC | src/mfg-ba-ptlnvp.cpp:119-191 | one square per line residual, and an even count of residuals |
| LmCost.OptLineItems | src/mfg-ba-ptlnvp.cpp:119-123 | optimised line k passes through its decoded mid-point toward its decoded vanishing point |
| LmCost.RpjLineItems | src/mfg-ba-ptlnvp.cpp:158-163 | reproject-only lines are projected as stored |
| LmCost.ResidualCount | src/mfg-ba-ptlnvp.cpp:311-349 | with whole segments, the point residuals fill the point part of measVec (two per observation), the line residuals the line part (one per endpoint), together exactly numMeas |
| LmCost.PointObsLoop | src/mfg-ba-ptlnvp.cpp:76-90 | the observation loop writes its residuals after the buffer's prefix and pushes their squares |
| LmCost.OptPointsPhase | src/mfg-ba-ptlnvp.cpp:74-92 | the optimised-point loop writes PointsC of those points, and pidx ends at the vanishing points |
| LmCost.RpjPointsPhase | src/mfg-ba-ptlnvp.cpp:93-110 | the reproject-only loop writes PointsC of those points |
| LmCost.SegLoop | src/mfg-ba-ptlnvp.cpp:132-143 | the segment loop writes SegC and advances eidx by the endpoint count |
| LmCost.LineObsLoop | src/mfg-ba-ptlnvp.cpp:124-156 | the observation loop writes LineObsC after the buffer's prefix |
| LmCost.OptLinesPhase | src/mfg-ba-ptlnvp.cpp:119-157 | the optimised-line loop writes LinesC of those lines, and pidx ends at numPara |
| LmCost.RpjLinesPhase | src/mfg-ba-ptlnvp.cpp:158-191 | the reproject-only loop writes LinesC of those lines |
| LmCost.SumLoop | src/mfg-ba-ptlnvp.cpp:196-201 | the cost loops compute Sum |
| LmCost.PointResiduals | src/mfg-ba-ptlnvp.cpp:73-110 | the point phases fill the buffer's prefix with the point residuals and return their squares |
| LmCost.LineResiduals | src/mfg-ba-ptlnvp.cpp:112-191 | the vanishing-point read and the line phases append the line residuals and return their squares |
| LmCost.CostFun | src/mfg-ba-ptlnvp.cpp:30-214 | the residual buffer and the totals equal CostSpec |
| LmCost.PointsPaired | src/mfg-ba-ptlnvp.cpp:86 | each err_pt_vec entry is the squared norm of the residual pair written for it |
| LmCost.LinesSquared | src/mfg-ba-ptlnvp.cpp:139-140 | each err_ln_vec entry is the square of the residual written beside it |
| LmCost.PointSumNonNegative | src/mfg-ba-ptlnvp.cpp:196-198 | with paired squares, err_pt >= 0 |
| LmCost.LineSumNonNegative | src/mfg-ba-ptlnvp.cpp:199-201 | with squared entries, err_ln >= 0 |
| LmCost.CostShape | src/mfg-ba-ptlnvp.cpp:30-214 | the buffer is numMeas long; point squares pair with point residuals, line squares with line residuals |
| LmCost.TotalsOfMeaning | src/mfg-ba-ptlnvp.cpp:195-209 | the totals of any point and line contributions are sound for their counts |
| LmCost.TotalsMeaning | src/mfg-ba-ptlnvp.cpp:195-209 | err_all = err_pt + err_ln, both >= 0; err_pt_mean = err_pt / (nPt / 2) and err_ln_mean = err_ln / (nLn / 2), each defined iff its count is positive |
| LmCost.InitialItems | src/mfg-ba-ptlnvp.cpp:74-123 | at the initial vector, optimised points are projected from their stored positions and optimised lines through their stored mid-points toward their stored vanishing points |
| LmRun.SolverOutput | src/mfg-ba-ptlnvp.cpp:382-383 | the solver's vector has numPara slots |
| LmRun.WriteBackSpec | src/mfg-ba-ptlnvp.cpp:389-434 | lengths and planes are kept; only optimised views' poses, optimised points' positions, vanishing points' positions and optimised lines' mid-point and direction change |
| LmRun.WritePoses | src/mfg-ba-ptlnvp.cpp:390-405 | each view at or after frontPosIdx takes its decoded pose, other views are kept, and pidx ends where the points begin |
| LmRun.WritePoints | src/mfg-ba-ptlnvp.cpp:407-413 | each optimised point takes its triple, the others are kept |
| LmRun.WriteVps | src/mfg-ba-ptlnvp.cpp:414-419 | every vanishing point takes its triple |
| LmRun.WriteLines | src/mfg-ba-ptlnvp.cpp:421-434 | each optimised line takes the new mid-point and direction, the others are kept |
| LmRun.WriteBack | src/mfg-ba-ptlnvp.cpp:389-434 | the write-back loops equal WriteBackSpec |
| LmRun.WriteBackKeepsStructure | src/mfg-ba-ptlnvp.cpp:407-419 | writing back the initial vector leaves every point and vanishing point where it was |
| LmRun.WriteBackKeepsPoses | src/mfg-ba-ptlnvp.cpp:390-405 | writing back the initial vector keeps every optimised translation but view 1's, and passes rotations through the quaternion round trip |
| LmRun.WriteBackLines | src/mfg-ba-ptlnvp.cpp:421-434 | writing back the initial vector gives each optimised line its vanishing point's direction and its old mid-point projected onto the line |
| LmRun.StoreTotals | src/mfg-ba-ptlnvp.cpp:437-441 | only the newest view changes, taking errAll, errPt, errLn and both means |
| LmRun.Run | src/mfg-ba-ptlnvp.cpp:216-441 | the driver equals RunSpec: layout, solve, write back of the result, totals of the last evaluation |
| LmRun.RunKeepsOldViews | src/mfg-ba-ptlnvp.cpp:391-405 | after a run, views before frontPosIdx other than the newest are unchanged |
| LmRun.RunKeepsFixedLandmarks | src/mfg-ba-ptlnvp.cpp:407-434 | after a run, reproject-only and unadmitted points and lines are unchanged |
| LmRun.RunStoresTotals | src/mfg-ba-ptlnvp.cpp:437-441 | the newest view holds the last evaluation's totals, which are sound for the window's measurement counts |
| MfgMap.Mfg.AdjustBundleG2O | src/mfgcore/mfg-ba-g2o.cpp:1023-1961 | on success, the map becomes the g2o run's result; on failure, the error is reported and the map is unchanged; the log and K are unchanged |
| MfgMap.Mfg.BundleAdjustBetween | src/mfgcore/mfg-ba-g2o.cpp:90-1021 | the same, over the window [view_from, view_to] with frontPosIdx = cam_from |
| MfgMap.Mfg.AdjustBundlePtLnVp | src/mfg-ba-ptlnvp.cpp:216-444 | the map becomes the Levenberg-Marquardt run's result; the log and K are unchanged |

## Left out

- Numerical geometry: these are opaque function parameters, so no property of the numbers they produce is stated. They include:
  - quaternion and rotation conversions, `unitVec2angle` and `angle2unitVec`;
  - projection, `projectPt3d2Ln3d`, point-to-line and segment-area distances;
  - the pseudo-Huber and Huber kernels;
  - the SBA camera's inverse pose, which the write-back undoes exactly;
  - `Geometry.planeOf`, the plane write-back (unit normal e/|e| and distance 1/|e| of the vertex estimate e = n/d).
- The optimisers: both g2o's Levenberg-Marquardt and `dlevmar_dif` are parameters. Their convergence, their options (opts, maxIter, maxIters) and the solver set-up are not modelled.
- LmRun.LastTotals: the stored totals are taken at the vector the solver last evaluated. That vector is a parameter, not derived from `dlevmar_dif`'s internals.
- G2oSolve.Moved: a proposed estimate of the wrong shape for its vertex kind is ignored. g2o cannot produce one, so this guard only closes the model.
- Console output, timers, `termReason`, `exportCamPose` to "latest.txt", and the `PLOT_MID_RESULTS` drawing code: I/O, not modelled.
- The `mfg_writing` flag that brackets the g2o write-back: it coordinates with another thread, and concurrency is not modelled.
- The g2o `toScale`/`scale` computed for view 1 in the write-back: the code never uses them.
- `errVnpt` and `optimizer.activeRobustChi2()` before solving: the first is computed but never stored, and the second is only printed. The stored errAll is the optimiser's robust total after solving, an opaque value of the cost model.
- The g2o line write-back reads `oldMidPt` after overwriting the mid-point, so its projection re-projects the new mid-point. The model writes exactly that. The Levenberg-Marquardt write-back reads the old mid-point first, as the model also does.
- An edge look-up failure in the g2o back ends ends the process with `exit(0)`. The model reports the failure and keeps the map unchanged.
- Without robust kernels (`getBaUseKernel()` false) the source calls `robustKernel()->robustify` on a null kernel: at the line-plane edges, and in every loop of the error pass. That is a crash, not a reported error. The model reports `Failure(NullKernel)` with the map unchanged. In the error-pass case the source crashes after the in-memory write-back, so the map it leaves behind (if any survives) is already updated.
- G2oWriteBack.ApplyVertex: a free plane takes `geo.planeOf` of its estimate, with no property stated. The source's normalisation therefore goes unstated: a plane with d < 0 comes back as (-n, -d), a non-unit n comes back normalised, and d = 0 gives inf and NaN. WriteBackValue and EntityMoved state the written plane through the same parameter.
- The camera-distance log stores view ids as doubles; the source truncates them with `(int)`. The model's `CamDist` takes them as integers.
- The g2o `dynamic_cast` of a vertex to the wrong kind is not modelled. Every bound vertex id is taken as usable.
- Entities, Windows and both back ends' preconditions (`BuildReady`, `CostReady`, `RunReady`) state what the code dereferences without checking:
  - observations name existing views and features;
  - registered points and lines sit at the index equal to their global id;
  - every line's vanishing point exists, whether or not the line is admitted;
  - the window lies inside the view list.
- SegmentsPaired: the Levenberg-Marquardt cost function under `LNERR_SAMPLE` reads `lsEndpoints[k + 1]`, while the measurement vector counts every endpoint.
  - With an odd endpoint count, the cost function reads past the end of the segment list and writes one residual more than was measured.
  - The model assumes whole segments.
- LmCost.TotalsMeaning: with no point (or line) residual, the source divides 0 by 0 and stores NaN. The model stores `None` for that mean.
- Invalid inputs to `bundle_adjust_between` are not modelled: a `view_to` past the last view, or `cam_from` outside the window, are excluded by `RunReady`.

## Findings

| source | as written | input that shows it | evidently intended | confidence | as-written member | corrected member |
|---|---|---|---|---|---|---|
| src/mfgcore/mfg-ba-g2o.cpp:1489-1496 | endpoint ids come from `unordered_map::operator[]`, which inserts 0 for a missing key; the check that follows only tests the found vertex for null, so the edge is bound to vertex 0 (the window's first camera) | a line edge whose vanishing point has no vertex (the line is observed at or after frontPosIdx, its vanishing point only before), or in `bundle_adjust_between` an observation in a view after `view_to` | a missing endpoint vertex stops the run, as the null checks intend | not executed | G2oEdges.AsWrittenBindsToVertexZero, G2oEdges.LineEdgeWithoutVanishingPoint | G2oEdges.ResolveAllSpec |
