/** Running the g2o optimiser on a built graph.  The solver itself is not part of
    this model: it is a function from the graph and an iteration budget to a
    proposed estimate per vertex id.  What is modelled is how the two back-end
    entry points drive it: one run of 25 iterations, or, when camera-distance
    edges exist, five rounds after each of which the distance edges'
    information is multiplied by 100. */
module G2oSolve {
  import opened G2oGraph

  type Optimizer = (Graph, nat) -> seq<Estimate>

  /** Iteration budget when the graph has no camera-distance edge. */
  const DefaultIters: nat := 25
  /** Number of optimisation rounds when camera-distance edges exist. */
  const DistRounds: nat := 5
  /** Factor applied to each distance edge's information after every round. */
  const DistBoost: real := 100.0

  predicate SameShape(a: Estimate, b: Estimate)
  {
    (a.PoseEst? && b.PoseEst?) || (a.XyzEst? && b.XyzEst?) || (a.PlaneEst? && b.PlaneEst?)
  }

  /** The vertices after the solver proposes `est`: a fixed vertex keeps its estimate,
      a free one takes the proposal for its id. */
  function Moved(verts: seq<Vertex>, est: seq<Estimate>): (r: seq<Vertex>)
    ensures |r| == |verts|
    ensures forall k :: 0 <= k < |verts| ==>
      r[k].kind == verts[k].kind && r[k].entity == verts[k].entity && r[k].fixed == verts[k].fixed &&
      SameShape(r[k].est, verts[k].est)
    ensures forall k :: 0 <= k < |verts| && verts[k].fixed ==> r[k] == verts[k]
    ensures forall k :: 0 <= k < |verts| && !verts[k].fixed && k < |est| && SameShape(verts[k].est, est[k]) ==>
      r[k].est == est[k]
  {
    seq(|verts|, k requires 0 <= k < |verts| =>
      if !verts[k].fixed && k < |est| && SameShape(verts[k].est, est[k]) then verts[k].(est := est[k]) else verts[k])
  }

  /** One call of `optimize(iters)`: only the vertices move. */
  function Optimize(g: Graph, iters: nat, opt: Optimizer): Graph
  {
    g.(verts := Moved(g.verts, opt(g, iters)))
  }

  function ScaleInfo(i: Info, f: real): Info
  {
    match i
    case Scaled(w) => Scaled(w * f)
    case Diag2(a, b) => Diag2(a * f, b * f)
  }

  function Pow(x: real, k: nat): real
  {
    if k == 0 then 1.0 else Pow(x, k - 1) * x
  }

  /** The distance edges with their information scaled by 100. */
  function Boosted(es: seq<Edge>): (r: seq<Edge>)
    ensures |r| == |es|
  {
    seq(|es|, k requires 0 <= k < |es| => es[k].(info := ScaleInfo(es[k].info, DistBoost)))
  }

  /** The graph after `k` distance-constrained rounds. */
  function Rounds(g: Graph, k: nat, iters: nat, opt: Optimizer): Graph
    decreases k
  {
    if k == 0 then g
    else
      var h := Optimize(Rounds(g, k - 1, iters, opt), iters, opt);
      h.(dist := Boosted(h.dist))
  }

  /** What the solve stage of both entry points does to the graph; `iters` is the
      budget chosen while adding distance edges. */
  function SolveSpec(g: Graph, iters: nat, opt: Optimizer): Graph
  {
    if |g.dist| > 0 then Rounds(g, DistRounds, iters, opt) else Optimize(g, DefaultIters, opt)
  }

  /** The solve loop: five rounds, each an optimisation followed by a pass over the
      distance edges multiplying their information by 100. */
  method Solve(g: Graph, iters: nat, opt: Optimizer) returns (r: Graph)
    ensures r == SolveSpec(g, iters, opt)
  {
    if |g.dist| > 0 {
      r := g;
      var round := 0;
      while round < DistRounds
        invariant 0 <= round <= DistRounds
        invariant r == Rounds(g, round, iters, opt)
      {
        r := Optimize(r, iters, opt);
        var d := r.dist;
        var i := 0;
        while i < |d|
          invariant 0 <= i <= |d| && |d| == |r.dist|
          invariant forall k :: 0 <= k < i ==> d[k] == r.dist[k].(info := ScaleInfo(r.dist[k].info, DistBoost))
          invariant forall k :: i <= k < |d| ==> d[k] == r.dist[k]
        {
          d := d[i := d[i].(info := ScaleInfo(d[i].info, DistBoost))];
          i := i + 1;
        }
        assert d == Boosted(r.dist);
        r := r.(dist := d);
        round := round + 1;
      }
    } else {
      r := Optimize(g, DefaultIters, opt);
    }
  }

  // ------------------------------------------------------------- properties

  /** Every vertex keeps its kind, the entity it stands for, its fixed flag and the
      shape of its estimate; a fixed vertex keeps its estimate. */
  predicate VerticesKept(a: seq<Vertex>, b: seq<Vertex>)
  {
    && |b| == |a|
    && (forall k :: 0 <= k < |a| ==>
          b[k].kind == a[k].kind && b[k].entity == a[k].entity && b[k].fixed == a[k].fixed &&
          SameShape(b[k].est, a[k].est))
    && (forall k :: 0 <= k < |a| && a[k].fixed ==> b[k] == a[k])
  }

  lemma ScaleInfoTwice(i: Info, x: real, y: real)
    ensures ScaleInfo(ScaleInfo(i, x), y) == ScaleInfo(i, x * y)
  {
    match i
    case Scaled(w) => assert w * x * y == w * (x * y);
    case Diag2(a, b) =>
      assert a * x * y == a * (x * y);
      assert b * x * y == b * (x * y);
  }

  /** After k rounds the vertices are kept, the observation edges are untouched, and
      each distance edge is unchanged but for its information, scaled by 100^k. */
  lemma {:induction false} RoundsKeep(g: Graph, k: nat, iters: nat, opt: Optimizer)
    ensures var h := Rounds(g, k, iters, opt);
            && VerticesKept(g.verts, h.verts)
            && h.kpt == g.kpt && h.vnpt == g.vnpt && h.line == g.line
            && h.ptPlane == g.ptPlane && h.lnPlane == g.lnPlane
            && |h.dist| == |g.dist|
            && (forall i :: 0 <= i < |g.dist| ==>
                  h.dist[i] == g.dist[i].(info := ScaleInfo(g.dist[i].info, Pow(DistBoost, k))))
    decreases k
  {
    if k == 0 {
      forall i | 0 <= i < |g.dist|
        ensures g.dist[i] == g.dist[i].(info := ScaleInfo(g.dist[i].info, 1.0))
      {
        match g.dist[i].info
        case Scaled(w) =>
        case Diag2(a, b) =>
      }
    } else {
      RoundsKeep(g, k - 1, iters, opt);
      var p := Rounds(g, k - 1, iters, opt);
      var h := Rounds(g, k, iters, opt);
      forall i | 0 <= i < |g.dist|
        ensures h.dist[i] == g.dist[i].(info := ScaleInfo(g.dist[i].info, Pow(DistBoost, k)))
      {
        ScaleInfoTwice(g.dist[i].info, Pow(DistBoost, k - 1), DistBoost);
      }
    }
  }

  /** The solve stage moves only free vertices and changes no edge but the distance
      edges' information, which after the five rounds is 100^5 times its initial value. */
  lemma SolveKeeps(g: Graph, iters: nat, opt: Optimizer)
    ensures var h := SolveSpec(g, iters, opt);
            && VerticesKept(g.verts, h.verts)
            && h.kpt == g.kpt && h.vnpt == g.vnpt && h.line == g.line
            && h.ptPlane == g.ptPlane && h.lnPlane == g.lnPlane
            && |h.dist| == |g.dist|
            && (forall i :: 0 <= i < |g.dist| ==>
                  h.dist[i] == g.dist[i].(info := ScaleInfo(g.dist[i].info, Pow(DistBoost, DistRounds))))
  {
    if |g.dist| > 0 {
      RoundsKeep(g, DistRounds, iters, opt);
    }
  }

  /** Round k + 1 hands the solver the graph whose distance edges carry 100^k times
      their initial information, with the configured budget. */
  lemma RoundInput(g: Graph, k: nat, iters: nat, opt: Optimizer)
    requires k < DistRounds
    ensures Rounds(g, k + 1, iters, opt).verts == Moved(Rounds(g, k, iters, opt).verts, opt(Rounds(g, k, iters, opt), iters))
    ensures forall i :: 0 <= i < |g.dist| ==>
      |Rounds(g, k, iters, opt).dist| == |g.dist| &&
      Rounds(g, k, iters, opt).dist[i].info == ScaleInfo(g.dist[i].info, Pow(DistBoost, k))
  {
    RoundsKeep(g, k, iters, opt);
  }
}
