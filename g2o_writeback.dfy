/** Copying the optimised estimates of the free g2o vertices back into the map.
    Vertices are visited in id order (cameras, points, vanishing points, lines,
    planes), which is the order of the source's five write-back loops; a fixed
    vertex is skipped.  A camera estimate holds the view's (R, t): the pose
    inverse the source applies on the way in is undone on the way out.  A plane
    estimate holds the (n, d) whose ratio n/d is the g2o vertex's estimate; the
    plane written back is `Geometry.planeOf` of it, the unit normal and distance
    of that ratio, which need not be the (n, d) the map held before. */
module G2oWriteBack {
  import opened Entities
  import opened G2oGraph

  /** Numerics the write-back relies on that are not part of this model:
      normalising a vector, projecting a point onto a 3D line, and turning a plane
      estimate (n, d), standing for e = n/d, into the written-back plane
      (e/|e|, 1/|e|). */
  datatype Geometry = Geometry(normalize: Vec3 -> Vec3, project: (IdealLine3d, Vec3) -> Vec3,
                               planeOf: (Vec3, real) -> (Vec3, real))

  /** Entity `e` of the given kind exists (and, for a line, so does its vanishing point). */
  predicate KindEntityInRange(kind: VKind, e: int, st: MapState)
  {
    match kind
    case CamV => 0 <= e < |st.views|
    case PointV => 0 <= e < |st.keyPoints|
    case VpV => 0 <= e < |st.vanishingPoints|
    case LineV => 0 <= e < |st.idealLines| && 0 <= st.idealLines[e].vpGid < |st.vanishingPoints|
    case PlaneV => 0 <= e < |st.primaryPlanes|
  }

  predicate EntityInRange(v: Vertex, st: MapState)
  {
    KindEntityInRange(v.kind, v.entity, st)
  }

  /** The estimate has the parameterisation of the vertex kind. */
  predicate ShapeOk(v: Vertex)
  {
    match v.kind
    case CamV => v.est.PoseEst?
    case PlaneV => v.est.PlaneEst?
    case _ => v.est.XyzEst?
  }

  predicate Writable(verts: seq<Vertex>, st: MapState)
  {
    forall k :: 0 <= k < |verts| ==> EntityInRange(verts[k], st) && ShapeOk(verts[k])
  }

  /** Same collections lengths and same line-to-vanishing-point links. */
  predicate SameLayout(a: MapState, b: MapState)
  {
    && |b.views| == |a.views| && |b.keyPoints| == |a.keyPoints|
    && |b.vanishingPoints| == |a.vanishingPoints| && |b.idealLines| == |a.idealLines|
    && |b.primaryPlanes| == |a.primaryPlanes|
    && forall i :: 0 <= i < |a.idealLines| ==> b.idealLines[i].vpGid == a.idealLines[i].vpGid
  }

  lemma LayoutKeepsRange(verts: seq<Vertex>, a: MapState, b: MapState)
    requires Writable(verts, a) && SameLayout(a, b)
    ensures Writable(verts, b)
  {
  }

  /** A line's update: the optimised mid-point, the direction of its vanishing point
      taken from `vps`, then the mid-point projected onto the line so obtained. */
  function LineUpdate(il: IdealLine3d, p: Vec3, vps: seq<VanishingPoint>, geo: Geometry): IdealLine3d
    requires 0 <= il.vpGid < |vps|
  {
    var l := il.(midpt := p, direct := geo.normalize(vps[il.vpGid].pos));
    l.(midpt := geo.project(l, l.midpt))
  }

  /** The write-back of one vertex. */
  function ApplyVertex(st: MapState, v: Vertex, geo: Geometry): (r: MapState)
    requires EntityInRange(v, st) && ShapeOk(v)
    ensures SameLayout(st, r)
  {
    if v.fixed then st
    else
      var e := v.entity;
      match v.kind
      case CamV => st.(views := st.views[e := st.views[e].(r := v.est.r, t := v.est.t)])
      case PointV => st.(keyPoints := st.keyPoints[e := st.keyPoints[e].(pos := v.est.p)])
      case VpV => st.(vanishingPoints := st.vanishingPoints[e := st.vanishingPoints[e].(pos := v.est.p)])
      case LineV => st.(idealLines := st.idealLines[e := LineUpdate(st.idealLines[e], v.est.p, st.vanishingPoints, geo)])
      case PlaneV =>
        var nd := geo.planeOf(v.est.n, v.est.d);
        st.(primaryPlanes := st.primaryPlanes[e := st.primaryPlanes[e].(n := nd.0, d := nd.1)])
  }

  /** All vertices written back in id order. */
  function WriteBackSpec(st: MapState, verts: seq<Vertex>, geo: Geometry): (r: MapState)
    requires Writable(verts, st)
    ensures SameLayout(st, r)
    decreases |verts|
  {
    if verts == [] then st
    else
      var n := |verts| - 1;
      var s := WriteBackSpec(st, verts[..n], geo);
      LayoutKeepsRange(verts, st, s);
      ApplyVertex(s, verts[n], geo)
  }

  method WriteBack(st: MapState, verts: seq<Vertex>, geo: Geometry) returns (r: MapState)
    requires Writable(verts, st)
    ensures r == WriteBackSpec(st, verts, geo)
  {
    r := st;
    var i := 0;
    while i < |verts|
      invariant 0 <= i <= |verts|
      invariant r == WriteBackSpec(st, verts[..i], geo)
    {
      assert verts[..i + 1][..i] == verts[..i];
      LayoutKeepsRange(verts, st, r);
      if !verts[i].fixed {
        r := ApplyVertex(r, verts[i], geo);
      }
      i := i + 1;
    }
    assert verts[..|verts|] == verts;
  }

  // ------------------------------------------------------------- properties

  /** One map entry, addressed by vertex kind and entity. */
  datatype Slot = ViewSlot(view: View) | PointSlot(kp: KeyPoint3d) | VpSlot(vp: VanishingPoint)
                | LineSlot(il: IdealLine3d) | PlaneSlot(pl: PrimaryPlane) | NoSlot

  function SlotOf(st: MapState, kind: VKind, e: int): Slot
  {
    match kind
    case CamV => if 0 <= e < |st.views| then ViewSlot(st.views[e]) else NoSlot
    case PointV => if 0 <= e < |st.keyPoints| then PointSlot(st.keyPoints[e]) else NoSlot
    case VpV => if 0 <= e < |st.vanishingPoints| then VpSlot(st.vanishingPoints[e]) else NoSlot
    case LineV => if 0 <= e < |st.idealLines| then LineSlot(st.idealLines[e]) else NoSlot
    case PlaneV => if 0 <= e < |st.primaryPlanes| then PlaneSlot(st.primaryPlanes[e]) else NoSlot
  }

  /** No free vertex of `verts` stands for entry (kind, e). */
  predicate Untouched(verts: seq<Vertex>, kind: VKind, e: int)
  {
    forall k :: 0 <= k < |verts| && verts[k].kind == kind && verts[k].entity == e ==> verts[k].fixed
  }

  /** Writing one vertex back changes only the entry it stands for. */
  lemma ApplyVertexFrame(st: MapState, v: Vertex, geo: Geometry, kind: VKind, e: int)
    requires EntityInRange(v, st) && ShapeOk(v)
    requires v.fixed || v.kind != kind || v.entity != e
    ensures SlotOf(ApplyVertex(st, v, geo), kind, e) == SlotOf(st, kind, e)
  {
  }

  /** Map entries that no free vertex stands for are left as they were. */
  lemma {:induction false} WriteBackFrame(st: MapState, verts: seq<Vertex>, geo: Geometry, kind: VKind, e: int)
    requires Writable(verts, st) && Untouched(verts, kind, e)
    ensures SlotOf(WriteBackSpec(st, verts, geo), kind, e) == SlotOf(st, kind, e)
    decreases |verts|
  {
    if verts != [] {
      var n := |verts| - 1;
      WriteBackFrame(st, verts[..n], geo, kind, e);
      var s := WriteBackSpec(st, verts[..n], geo);
      LayoutKeepsRange(verts, st, s);
      ApplyVertexFrame(s, verts[n], geo, kind, e);
    }
  }

  lemma {:induction false} WriteBackAppend(st: MapState, a: seq<Vertex>, b: seq<Vertex>, geo: Geometry)
    requires Writable(a + b, st)
    ensures Writable(a, st)
    ensures Writable(b, WriteBackSpec(st, a, geo))
    ensures WriteBackSpec(st, a + b, geo) == WriteBackSpec(WriteBackSpec(st, a, geo), b, geo)
    decreases |b|
  {
    assert forall k :: 0 <= k < |a| ==> a[k] == (a + b)[k];
    assert forall k :: 0 <= k < |b| ==> b[k] == (a + b)[|a| + k];
    LayoutKeepsRange(b, st, WriteBackSpec(st, a, geo));
    if b == [] {
      assert a + b == a;
    } else {
      var n := |b| - 1;
      assert (a + b)[..|a + b| - 1] == a + b[..n];
      WriteBackAppend(st, a, b[..n], geo);
    }
  }

  /** Entries of a kind with no free vertex at or after position j are final from j on. */
  lemma KindSettled(st: MapState, verts: seq<Vertex>, geo: Geometry, j: nat, kind: VKind)
    requires Writable(verts, st) && j <= |verts|
    requires forall k :: j <= k < |verts| ==> verts[k].fixed || verts[k].kind != kind
    ensures Writable(verts[..j], st)
    ensures forall e :: SlotOf(WriteBackSpec(st, verts, geo), kind, e) == SlotOf(WriteBackSpec(st, verts[..j], geo), kind, e)
  {
    assert verts == verts[..j] + verts[j..];
    WriteBackAppend(st, verts[..j], verts[j..], geo);
    var s := WriteBackSpec(st, verts[..j], geo);
    forall e
      ensures SlotOf(WriteBackSpec(st, verts, geo), kind, e) == SlotOf(s, kind, e)
    {
      WriteBackFrame(s, verts[j..], geo, kind, e);
    }
  }

  /** Each (kind, entity) pair has at most one vertex. */
  predicate EntitiesDistinct(verts: seq<Vertex>)
  {
    forall i, j :: 0 <= i < j < |verts| && verts[i].kind == verts[j].kind ==> verts[i].entity != verts[j].entity
  }

  /** The free vertex at position j is the only one to write its entry, and the entry
      ends up as that single update of its original value. */
  lemma WriteBackSingle(st: MapState, verts: seq<Vertex>, geo: Geometry, j: nat)
    requires Writable(verts, st) && EntitiesDistinct(verts) && j < |verts| && !verts[j].fixed
    ensures Writable(verts[..j], st)
    ensures SlotOf(WriteBackSpec(st, verts, geo), verts[j].kind, verts[j].entity) ==
            SlotOf(ApplyVertex(WriteBackSpec(st, verts[..j], geo), verts[j], geo), verts[j].kind, verts[j].entity)
    ensures SlotOf(WriteBackSpec(st, verts[..j], geo), verts[j].kind, verts[j].entity) ==
            SlotOf(st, verts[j].kind, verts[j].entity)
  {
    var v := verts[j];
    var pre := verts[..j];
    var post := verts[j + 1..];
    assert verts == pre + [v] + post;
    assert pre + [v] == verts[..j + 1];
    WriteBackAppend(st, pre + [v], post, geo);
    WriteBackAppend(st, pre, [v], geo);
    assert forall k :: 0 <= k < |post| ==> post[k] == verts[j + 1 + k];
    var s := WriteBackSpec(st, pre, geo);
    WriteBackFrame(st, pre, geo, v.kind, v.entity);
    assert [v][..0] == [];
    WriteBackFrame(WriteBackSpec(st, pre + [v], geo), post, geo, v.kind, v.entity);
  }

  /** The write-back of a free camera, point, vanishing-point or plane vertex whose entity
      has no other vertex of its kind: the entry takes the vertex's estimate (a plane,
      the conversion `planeOf` of it) and keeps everything else. */
  lemma WriteBackValue(st: MapState, verts: seq<Vertex>, geo: Geometry, j: nat)
    requires Writable(verts, st) && EntitiesDistinct(verts) && j < |verts| && !verts[j].fixed
    requires verts[j].kind != LineV
    ensures var v := verts[j];
            var e := v.entity;
            var r := WriteBackSpec(st, verts, geo);
            match v.kind
            case CamV => r.views[e] == st.views[e].(r := v.est.r, t := v.est.t)
            case PointV => r.keyPoints[e] == st.keyPoints[e].(pos := v.est.p)
            case VpV => r.vanishingPoints[e] == st.vanishingPoints[e].(pos := v.est.p)
            case PlaneV => r.primaryPlanes[e] == st.primaryPlanes[e].(n := geo.planeOf(v.est.n, v.est.d).0, d := geo.planeOf(v.est.n, v.est.d).1)
            case LineV => true
  {
    WriteBackSingle(st, verts, geo, j);
  }

  /** Vertex kinds appear in insertion order (cameras, points, VPs, lines, planes). */
  function KindRank(k: VKind): nat
  {
    match k
    case CamV => 0
    case PointV => 1
    case VpV => 2
    case LineV => 3
    case PlaneV => 4
  }

  predicate KindsOrdered(verts: seq<Vertex>)
  {
    forall i, j :: 0 <= i < j < |verts| ==> KindRank(verts[i].kind) <= KindRank(verts[j].kind)
  }

  lemma VpsSettled(st: MapState, verts: seq<Vertex>, geo: Geometry, j: nat)
    requires Writable(verts, st) && KindsOrdered(verts) && j < |verts| && verts[j].kind == LineV
    ensures Writable(verts[..j], st)
    ensures WriteBackSpec(st, verts[..j], geo).vanishingPoints == WriteBackSpec(st, verts, geo).vanishingPoints
  {
    KindSettled(st, verts, geo, j, VpV);
    var a := WriteBackSpec(st, verts[..j], geo).vanishingPoints;
    var b := WriteBackSpec(st, verts, geo).vanishingPoints;
    forall e | 0 <= e < |a|
      ensures a[e] == b[e]
    {
      assert SlotOf(WriteBackSpec(st, verts, geo), VpV, e) == SlotOf(WriteBackSpec(st, verts[..j], geo), VpV, e);
    }
  }

  /** A free line vertex: the line ends with the optimised mid-point, the direction of its
      vanishing point as finally written back, and the projection step applied. */
  lemma WriteBackLine(st: MapState, verts: seq<Vertex>, geo: Geometry, j: nat)
    requires Writable(verts, st) && EntitiesDistinct(verts) && KindsOrdered(verts)
    requires j < |verts| && !verts[j].fixed && verts[j].kind == LineV
    ensures var e := verts[j].entity;
            var r := WriteBackSpec(st, verts, geo);
            0 <= e < |st.idealLines| && 0 <= st.idealLines[e].vpGid < |r.vanishingPoints| &&
            r.idealLines[e] == LineUpdate(st.idealLines[e], verts[j].est.p, r.vanishingPoints, geo)
  {
    WriteBackSingle(st, verts, geo, j);
    VpsSettled(st, verts, geo, j);
  }
}
