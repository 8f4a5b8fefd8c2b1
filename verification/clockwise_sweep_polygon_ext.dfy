/** The two patches of the sweep polygon: the identify phase rewrites the sweep's
    own edges in place, the inclusion test sees a patched clone. */
module ClockwiseSweepPolygonExt {
  import opened Documents
  import opened EdgePatcher

  /** The part of a sweep polygon the patches read and write. */
  class ClockwiseSweepPolygon {
    const config: SweepConfig
    var edges: set<Edge>

    constructor (config: SweepConfig, edges: set<Edge>)
      ensures this.config == config && this.edges == edges
    {
      this.config := config;
      this.edges := edges;
    }
  }

  /** The state an edge of a sweep has once the light decision for it is applied;
      both call sites produce exactly this state. */
  function Patched(edge: Edge, config: SweepConfig, s: EdgeState): EdgeState
  {
    if !IsClockwiseSweepPolygonLight(config) then s
    else
      var edgeMod := GetEdgeModForLight(edge, config);
      if HasModifications(edgeMod) then ApplySenses(edgeMod, s) else s
  }

  /** Outside light sweeps, and for edges whose decision has no modifications, the
      patch is the identity; otherwise it is the application of that decision. */
  lemma PatchedCases(edge: Edge, config: SweepConfig, s: EdgeState)
    ensures !IsClockwiseSweepPolygonLight(config) ==> Patched(edge, config, s) == s
    ensures IsClockwiseSweepPolygonLight(config) ==>
      Patched(edge, config, s) == ApplySenses(GetEdgeModForLight(edge, config), s)
  {
    if IsClockwiseSweepPolygonLight(config) && !HasModifications(GetEdgeModForLight(edge, config)) {
      UnmodifiedIsIdentity(GetEdgeModForLight(edge, config), s);
    }
  }

  /** Patching an edge the identify phase already patched changes nothing more. */
  lemma PatchedIdempotent(edge: Edge, config: SweepConfig, s: EdgeState)
    ensures Patched(edge, config, Patched(edge, config, s)) == Patched(edge, config, s)
  {
    if IsClockwiseSweepPolygonLight(config) {
      var edgeMod := GetEdgeModForLight(edge, config);
      if HasModifications(edgeMod) {
        ApplySensesIdempotent(edgeMod, s);
      }
    }
  }

  /** `identifyEdges`: in a light sweep, every edge whose decision has modifications
      is rewritten in place; no other edge, and nothing outside a light sweep, changes. */
  method IdentifyEdges(csp: ClockwiseSweepPolygon)
    modifies csp.edges
    ensures forall e :: e in csp.edges ==> e.State() == Patched(e, csp.config, old(e.State()))
    ensures !IsClockwiseSweepPolygonLight(csp.config) ==>
      forall e :: e in csp.edges ==> e.State() == old(e.State())
  {
    if !IsClockwiseSweepPolygonLight(csp.config) {
      return;
    }
    var remaining := csp.edges;
    while remaining != {}
      invariant remaining <= csp.edges
      invariant forall e :: e in csp.edges && e !in remaining ==> e.State() == Patched(e, csp.config, old(e.State()))
      invariant forall e :: e in remaining ==> e.State() == old(e.State())
      decreases remaining
    {
      var edge :| edge in remaining;
      var edgeMod := GetEdgeModForLight(edge, csp.config);
      if HasModifications(edgeMod) {
        ApplySensesTo(edgeMod, edge);
      }
      remaining := remaining - {edge};
    }
  }

  /** `identifyEdges_Wrapper`: the host's identification runs first and materialises
      the sweep's edge set (given here as `identified`); the patch then runs on it. */
  method IdentifyEdgesWrapper(csp: ClockwiseSweepPolygon, identified: set<Edge>)
    modifies csp, identified
    ensures csp.edges == identified
    ensures forall e :: e in identified ==> e.State() == Patched(e, csp.config, old(e.State()))
  {
    csp.edges := identified;
    IdentifyEdges(csp);
  }

  /** `getTestEdge`: the edge itself outside light sweeps and when the decision has no
      modifications; otherwise a fresh clone carrying the decision. The given edge is
      never written. */
  method GetTestEdge(edge: Edge, csp: ClockwiseSweepPolygon) returns (tested: Edge)
    ensures tested.State() == Patched(edge, csp.config, edge.State())
    ensures tested.wallDoc == edge.wallDoc
    ensures !IsClockwiseSweepPolygonLight(csp.config) ==> tested == edge
    ensures IsClockwiseSweepPolygonLight(csp.config) ==>
      (tested == edge <==> !HasModifications(GetEdgeModForLight(edge, csp.config)))
    ensures tested != edge ==> fresh(tested)
  {
    if !IsClockwiseSweepPolygonLight(csp.config) {
      return edge;
    }
    var edgeMod := GetEdgeModForLight(edge, csp.config);
    if !HasModifications(edgeMod) {
      return edge;
    }
    var clonedEdge := edge.Clone();
    ApplySensesTo(edgeMod, clonedEdge);
    return clonedEdge;
  }

  /** `testEdgeInclusion_Wrapper`: the host's inclusion test (`wrapped`, a function of
      the state of the edge it is given and of the remaining arguments) receives the
      test edge in place of the first argument and every other argument unchanged. */
  method TestEdgeInclusionWrapper<A>(csp: ClockwiseSweepPolygon, edge: Edge, rest: A,
                                     wrapped: (EdgeState, A) -> bool)
    returns (tested: Edge, result: bool)
    ensures result == wrapped(tested.State(), rest)
    ensures tested.State() == Patched(edge, csp.config, edge.State())
    ensures tested == edge || fresh(tested)
  {
    tested := GetTestEdge(edge, csp);
    result := wrapped(tested.State(), rest);
  }
}
