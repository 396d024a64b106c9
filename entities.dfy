/** The map entities that local bundle adjustment borrows from the
    multilayer feature graph: views, key points, ideal lines, vanishing
    points, primary planes and the camera-distance log.  Geometry is kept
    as plain reals; everything numeric beyond copying values around is
    delegated to the `Geometry` collaborator of each back end. */
module Entities {

  datatype Option<T> = None | Some(value: T)

  datatype Vec3 = Vec3(x: real, y: real, z: real)
  datatype Point2 = Point2(x: real, y: real)

  /** A 3x3 rotation matrix, row-major. */
  datatype Rotation = Rotation(m: seq<real>)

  /** The shared intrinsic matrix K, row-major. */
  datatype Intrinsics = Intrinsics(m: seq<real>)

  /** One observation of a landmark: the view it was seen in and the local
      feature (point, line or vanishing-point) id in that view. */
  datatype Obs = Obs(view: int, local: int)

  /** A vanishing point detected in one view, with its 2x2 angular covariance
      `cov_ab` stored row-major as [c00, c01, c10, c11]. */
  datatype VpDetection = VpDetection(pos: Vec3, c00: real, c01: real, c10: real, c11: real)

  /** A 2D ideal line detected in one view; `lsEndpoints` holds the endpoints
      of its supporting line segments, two per segment. */
  datatype LineDetection = LineDetection(lsEndpoints: seq<Point2>)

  datatype View = View(
    id: int,
    r: Rotation,
    t: Vec3,
    matchable: bool,
    featurePoints: seq<Point2>,
    vanishPoints: seq<VpDetection>,
    idealLines: seq<LineDetection>,
    errAll: real,
    errPt: real,
    errLn: real,
    errPl: real,
    errPtMean: Option<real>,  // None where the source divides by zero (NaN)
    errLnMean: Option<real>)

  datatype KeyPoint3d = KeyPoint3d(pos: Vec3, gid: int, is3D: bool, obs: seq<Obs>, estViewId: int)

  datatype IdealLine3d = IdealLine3d(
    midpt: Vec3, direct: Vec3, vpGid: int, gid: int, is3D: bool, obs: seq<Obs>, estViewId: int)

  datatype VanishingPoint = VanishingPoint(pos: Vec3, gid: int, obs: seq<Obs>)

  /** A plane n.X = d with the global ids of its member points and lines. */
  datatype PrimaryPlane = PrimaryPlane(n: Vec3, d: real, kptGids: seq<int>, ilnGids: seq<int>, estViewId: int)

  /** One entry of the camera-distance log: views a and b are `dist` apart, with weight `weight`. */
  datatype CamDist = CamDist(viewA: int, viewB: int, dist: real, weight: real)

  /** The parts of the map local bundle adjustment reads and writes. */
  datatype MapState = MapState(
    views: seq<View>,
    keyPoints: seq<KeyPoint3d>,
    vanishingPoints: seq<VanishingPoint>,
    idealLines: seq<IdealLine3d>,
    primaryPlanes: seq<PrimaryPlane>)

  /** Some observation is in view `v` or later. */
  predicate SeenFrom(obs: seq<Obs>, v: int)
  {
    exists j :: 0 <= j < |obs| && obs[j].view >= v
  }

  // ---- what the source assumes of the map it is handed ----

  /** Every observation names an existing view and an existing local feature of the given kind. */
  predicate PointObsValid(views: seq<View>, obs: seq<Obs>)
  {
    forall j :: 0 <= j < |obs| ==>
      0 <= obs[j].view < |views| && 0 <= obs[j].local < |views[obs[j].view].featurePoints|
  }

  predicate LineObsValid(views: seq<View>, obs: seq<Obs>)
  {
    forall j :: 0 <= j < |obs| ==>
      0 <= obs[j].view < |views| && 0 <= obs[j].local < |views[obs[j].view].idealLines|
  }

  predicate VpObsValid(views: seq<View>, obs: seq<Obs>)
  {
    forall j :: 0 <= j < |obs| ==>
      0 <= obs[j].view < |views| && 0 <= obs[j].local < |views[obs[j].view].vanishPoints|
  }

  /** View ids equal their positions in the view list. */
  predicate ViewIdsAreIndices(views: seq<View>)
  {
    forall i :: 0 <= i < |views| ==> views[i].id == i
  }

  /** The observation structure both back ends dereference without checks. */
  predicate ObservationsValid(views: seq<View>, kps: seq<KeyPoint3d>, vps: seq<VanishingPoint>, ils: seq<IdealLine3d>)
  {
    && (forall i :: 0 <= i < |kps| ==> PointObsValid(views, kps[i].obs))
    && (forall i :: 0 <= i < |vps| ==> VpObsValid(views, vps[i].obs))
    && (forall i :: 0 <= i < |ils| ==> LineObsValid(views, ils[i].obs))
    && (forall i :: 0 <= i < |ils| ==> 0 <= ils[i].vpGid < |vps|)
  }

  /** Global ids equal positions: a registered (gid >= 0) point or line is found at index gid,
      and every vanishing point's gid is its index. */
  predicate GidsAreIndices(kps: seq<KeyPoint3d>, vps: seq<VanishingPoint>, ils: seq<IdealLine3d>)
  {
    && (forall i :: 0 <= i < |kps| && kps[i].gid >= 0 ==> kps[i].gid == i)
    && (forall i :: 0 <= i < |vps| ==> vps[i].gid == i)
    && (forall i :: 0 <= i < |ils| && ils[i].gid >= 0 ==> ils[i].gid == i)
  }

  /** Every stored line detection has whole segments (an even number of endpoints). */
  predicate SegmentsPaired(views: seq<View>)
  {
    forall v, l :: 0 <= v < |views| && 0 <= l < |views[v].idealLines| ==>
      |views[v].idealLines[l].lsEndpoints| % 2 == 0
  }
}
