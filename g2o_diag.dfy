/** The error summary computed after a g2o run: for each edge group, the sum of the
    robustified squared errors of the edges that have at least one free vertex.
    Evaluating an edge's error and its robust kernel is numeric and not part of
    this model: `rho` gives the first component of the kernel's output for an
    edge over the solved vertices, `robustChi2` the optimiser's total. */
module G2oDiag {
  import opened SeqUtil
  import opened Entities
  import opened G2oGraph
  import opened G2oEdges

  datatype CostModel = CostModel(rho: (Edge, seq<Vertex>) -> real, robustChi2: Graph -> real)

  /** g2o's allVerticesFixed() (an endpoint id outside the vertex list counts as free). */
  predicate AllFixed(e: Edge, verts: seq<Vertex>)
  {
    forall j :: 0 <= j < |e.verts| ==> e.verts[j] < |verts| && verts[e.verts[j]].fixed
  }

  /** Edge k's share of its group's error: nothing when all its vertices are fixed. */
  function Share(es: seq<Edge>, k: nat, verts: seq<Vertex>, cm: CostModel): real
    requires k < |es|
  {
    if AllFixed(es[k], verts) then 0.0 else cm.rho(es[k], verts)
  }

  /** An edge asks its robust kernel for a value; one without a kernel makes the
      source dereference a null pointer. */
  predicate Counted(e: Edge, verts: seq<Vertex>)
  {
    !AllFixed(e, verts)
  }

  /** The accumulation loop of one group, edge by edge. */
  function GroupCost(es: seq<Edge>, verts: seq<Vertex>, cm: CostModel): Result<real>
    decreases |es|
  {
    if es == [] then Success(0.0)
    else
      var n := |es| - 1;
      match GroupCost(es[..n], verts, cm)
      case Failure(err) => Failure(err)
      case Success(c) =>
        if !Counted(es[n], verts) then Success(c)
        else if es[n].kernel == NoKernel then Failure(NullKernel)
        else Success(c + cm.rho(es[n], verts))
  }

  function Shares(es: seq<Edge>, verts: seq<Vertex>, cm: CostModel): (r: seq<real>)
    ensures |r| == |es|
  {
    seq(|es|, k requires 0 <= k < |es| => Share(es, k, verts, cm))
  }

  predicate KernelsPresent(es: seq<Edge>, verts: seq<Vertex>)
  {
    forall k :: 0 <= k < |es| && Counted(es[k], verts) ==> es[k].kernel != NoKernel
  }

  /** The group's error is defined iff every counted edge has a kernel, and then it is the
      sum of the counted edges' robust errors in order. */
  lemma {:induction false} GroupCostSum(es: seq<Edge>, verts: seq<Vertex>, cm: CostModel)
    ensures GroupCost(es, verts, cm).Success? <==> KernelsPresent(es, verts)
    ensures GroupCost(es, verts, cm).Success? ==> GroupCost(es, verts, cm).value == Sum(Shares(es, verts, cm))
    decreases |es|
  {
    if es != [] {
      var n := |es| - 1;
      var pre := es[..n];
      GroupCostSum(pre, verts, cm);
      assert forall k :: 0 <= k < n ==> pre[k] == es[k];
      assert Shares(es, verts, cm)[..n] == Shares(pre, verts, cm);
    }
  }

  /** An edge whose vertices are all fixed leaves its group's error as it is. */
  lemma FixedEdgeAddsNothing(es: seq<Edge>, e: Edge, verts: seq<Vertex>, cm: CostModel)
    requires AllFixed(e, verts)
    ensures GroupCost(es + [e], verts, cm) == GroupCost(es, verts, cm)
  {
    assert (es + [e])[..|es|] == es;
  }

  /** With non-negative robust errors, every group error is non-negative. */
  lemma GroupCostNonNegative(es: seq<Edge>, verts: seq<Vertex>, cm: CostModel)
    requires forall k :: 0 <= k < |es| ==> cm.rho(es[k], verts) >= 0.0
    requires GroupCost(es, verts, cm).Success?
    ensures GroupCost(es, verts, cm).value >= 0.0
  {
    GroupCostSum(es, verts, cm);
    SumNonNegative(Shares(es, verts, cm));
  }

  method GroupCostLoop(es: seq<Edge>, verts: seq<Vertex>, cm: CostModel) returns (r: Result<real>)
    ensures r == GroupCost(es, verts, cm)
  {
    var acc := 0.0;
    var i := 0;
    while i < |es|
      invariant 0 <= i <= |es|
      invariant GroupCost(es[..i], verts, cm) == Success(acc)
    {
      assert es[..i + 1][..i] == es[..i];
      if Counted(es[i], verts) {
        if es[i].kernel == NoKernel {
          GroupFailureSticks(es, verts, cm, i + 1);
          return Failure(NullKernel);
        }
        acc := acc + cm.rho(es[i], verts);
      }
      i := i + 1;
    }
    assert es[..|es|] == es;
    r := Success(acc);
  }

  /** Once a prefix fails, the whole group fails with the same error. */
  lemma {:induction false} GroupFailureSticks(es: seq<Edge>, verts: seq<Vertex>, cm: CostModel, i: nat)
    requires i <= |es| && GroupCost(es[..i], verts, cm).Failure?
    ensures GroupCost(es, verts, cm) == GroupCost(es[..i], verts, cm)
    decreases |es| - i
  {
    if i < |es| {
      assert es[..i + 1][..i] == es[..i];
      GroupFailureSticks(es, verts, cm, i + 1);
    } else {
      assert es[..i] == es;
    }
  }

  /** The reported errors: the optimiser's total and the point, vanishing-point,
      line and plane (point-plane plus line-plane) group errors. */
  datatype Errors = Errors(all: real, pt: real, vp: real, ln: real, pl: real)

  function ErrorsSpec(g: Graph, cm: CostModel): Result<Errors>
  {
    match GroupCost(g.kpt, g.verts, cm)
    case Failure(e) => Failure(e)
    case Success(pt) =>
      match GroupCost(g.vnpt, g.verts, cm)
      case Failure(e) => Failure(e)
      case Success(vp) =>
        match GroupCost(g.line, g.verts, cm)
        case Failure(e) => Failure(e)
        case Success(ln) =>
          match GroupCost(g.ptPlane, g.verts, cm)
          case Failure(e) => Failure(e)
          case Success(pp) =>
            match GroupCost(g.lnPlane, g.verts, cm)
            case Failure(e) => Failure(e)
            case Success(lp) => Success(Errors(cm.robustChi2(g), pt, vp, ln, pp + lp))
  }

  method ComputeErrors(g: Graph, cm: CostModel) returns (r: Result<Errors>)
    ensures r == ErrorsSpec(g, cm)
  {
    var pt := GroupCostLoop(g.kpt, g.verts, cm);
    if pt.Failure? { return Failure(pt.error); }
    var vp := GroupCostLoop(g.vnpt, g.verts, cm);
    if vp.Failure? { return Failure(vp.error); }
    var ln := GroupCostLoop(g.line, g.verts, cm);
    if ln.Failure? { return Failure(ln.error); }
    var pp := GroupCostLoop(g.ptPlane, g.verts, cm);
    if pp.Failure? { return Failure(pp.error); }
    var lp := GroupCostLoop(g.lnPlane, g.verts, cm);
    if lp.Failure? { return Failure(lp.error); }
    r := Success(Errors(cm.robustChi2(g), pt.value, vp.value, ln.value, pp.value + lp.value));
  }

  /** The summary exists iff every counted edge of the five groups has a kernel; the
      plane error is the sum over both plane groups. */
  lemma ErrorsIff(g: Graph, cm: CostModel)
    ensures ErrorsSpec(g, cm).Success? <==>
      (KernelsPresent(g.kpt, g.verts) && KernelsPresent(g.vnpt, g.verts) && KernelsPresent(g.line, g.verts) &&
       KernelsPresent(g.ptPlane, g.verts) && KernelsPresent(g.lnPlane, g.verts))
    ensures ErrorsSpec(g, cm).Success? ==>
      ErrorsSpec(g, cm).value.pl == Sum(Shares(g.ptPlane, g.verts, cm)) + Sum(Shares(g.lnPlane, g.verts, cm)) &&
      ErrorsSpec(g, cm).value.pt == Sum(Shares(g.kpt, g.verts, cm)) &&
      ErrorsSpec(g, cm).value.ln == Sum(Shares(g.line, g.verts, cm))
  {
    GroupCostSum(g.kpt, g.verts, cm);
    GroupCostSum(g.vnpt, g.verts, cm);
    GroupCostSum(g.line, g.verts, cm);
    GroupCostSum(g.ptPlane, g.verts, cm);
    GroupCostSum(g.lnPlane, g.verts, cm);
  }

  /** Storing the summary on the newest view; the vanishing-point error is not stored. */
  function StoreErrors(views: seq<View>, er: Errors): (r: seq<View>)
    requires |views| > 0
    ensures |r| == |views| && r[..|views| - 1] == views[..|views| - 1]
    ensures r[|views| - 1] == views[|views| - 1].(errAll := er.all, errPt := er.pt, errLn := er.ln, errPl := er.pl)
  {
    views[|views| - 1 := views[|views| - 1].(errAll := er.all, errPt := er.pt, errLn := er.ln, errPl := er.pl)]
  }
}
