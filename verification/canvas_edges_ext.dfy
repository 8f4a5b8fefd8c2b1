/** The patch of the canvas edge query: a caller's collision test is wrapped so that
    it sees curtain-modified clones, and the clones replace their originals in the
    result set. */
module CanvasEdgesExt {
  import opened Documents
  import opened EdgePatcher

  /** The options of the host's edge query; `collisionTest` decides from an edge's
      senses whether the edge is kept. */
  datatype GetEdgesOptions = GetEdgesOptions(
    includeInnerBounds: bool,
    includeOuterBounds: bool,
    collisionTest: Option<EdgeState -> bool>)

  /** The state the collision test sees for an edge: the edge's own state, or that of
      a clone carrying the curtain decision when the decision has modifications. */
  function SeenState(edge: Edge): EdgeState
    reads edge
  {
    var edgeMod := GetEdgeMod(edge);
    if HasModifications(edgeMod) then ApplySenses(edgeMod, edge.State()) else edge.State()
  }

  /** The edge a result element stands for after substitution: its recorded clone, if any. */
  function Substitute(clonedMap: map<Edge, Edge>, e: Edge): Edge
  {
    if e in clonedMap then clonedMap[e] else e
  }

  /** The wrapped `collisionTest`: an edge without modifications is tested as it is;
      otherwise a clone is modified, recorded against the edge, and tested instead.
      The edge itself is never written. */
  method WrappedCollisionTest(edge: Edge, originalTest: EdgeState -> bool, clonedMap: map<Edge, Edge>)
    returns (pass: bool, clonedMap': map<Edge, Edge>)
    ensures pass == originalTest(SeenState(edge))
    ensures !HasModifications(GetEdgeMod(edge)) ==> clonedMap' == clonedMap
    ensures HasModifications(GetEdgeMod(edge)) ==>
      && edge in clonedMap'
      && clonedMap' == clonedMap[edge := clonedMap'[edge]]
      && fresh(clonedMap'[edge])
      && clonedMap'[edge].wallDoc == edge.wallDoc
      && clonedMap'[edge].State() == SeenState(edge)
  {
    var edgeMod := GetEdgeMod(edge);
    if !HasModifications(edgeMod) {
      return originalTest(edge.State()), clonedMap;
    }
    var clonedEdge := edge.Clone();
    ApplySensesTo(edgeMod, clonedEdge);
    clonedMap' := clonedMap[edge := clonedEdge];
    pass := originalTest(clonedEdge.State());
  }

  /** Distinct originals have distinct clones. */
  ghost predicate Injective(clonedMap: map<Edge, Edge>)
  {
    forall k, k' :: k in clonedMap && k' in clonedMap && k != k' ==> clonedMap[k] != clonedMap[k']
  }

  /** Recording a clone that is not yet a value keeps the map injective. */
  lemma InjectiveUpdate(m: map<Edge, Edge>, k: Edge, v: Edge)
    requires Injective(m)
    requires forall j :: j in m ==> m[j] != v
    ensures Injective(m[k := v])
  {
  }

  /** The final loop: each result edge with a recorded clone is replaced by it, every
      other edge is kept; when clones are distinct and none of them is already in the
      result, the output has as many elements as the input. */
  method SubstituteClones(result: set<Edge>, clonedMap: map<Edge, Edge>) returns (finalResult: set<Edge>)
    ensures finalResult == set e | e in result :: Substitute(clonedMap, e)
    ensures Injective(clonedMap) && (forall k :: k in clonedMap ==> clonedMap[k] !in result) ==>
      |finalResult| == |result|
  {
    ghost var inj := Injective(clonedMap) && (forall k :: k in clonedMap ==> clonedMap[k] !in result);
    finalResult := {};
    var remaining := result;
    while remaining != {}
      invariant remaining <= result
      invariant finalResult == set e | e in result - remaining :: Substitute(clonedMap, e)
      invariant inj ==> |finalResult| == |result - remaining|
      decreases remaining
    {
      var edge :| edge in remaining;
      ghost var done := result - remaining;
      if inj {
        forall p | p in done ensures Substitute(clonedMap, p) != Substitute(clonedMap, edge) {
          assert p != edge && p in result && edge in result;
        }
        assert Substitute(clonedMap, edge) !in finalResult;
      }
      if edge in clonedMap {
        finalResult := finalResult + {clonedMap[edge]};
      } else {
        finalResult := finalResult + {edge};
      }
      remaining := remaining - {edge};
      assert result - remaining == done + {edge};
    }
  }

  /** The host's query with the wrapped test installed: it calls the wrapped test on
      every candidate, which records a clone for each modified one, and keeps the
      candidates the test accepts. */
  method QueryWithWrappedTest(candidates: seq<Edge>, test: EdgeState -> bool)
    returns (result: set<Edge>, cloned: map<Edge, Edge>)
    ensures result == set e | e in candidates && test(SeenState(e))
    ensures cloned.Keys == set e | e in candidates && HasModifications(GetEdgeMod(e))
    ensures forall e :: e in cloned ==>
      fresh(cloned[e]) && cloned[e].wallDoc == e.wallDoc && cloned[e].State() == SeenState(e)
    ensures Injective(cloned)
  {
    cloned := map[];
    result := {};
    var i := 0;
    while i < |candidates|
      invariant 0 <= i <= |candidates|
      invariant forall e :: e in result <==> e in candidates[..i] && test(SeenState(e))
      invariant forall e :: e in cloned <==> e in candidates[..i] && HasModifications(GetEdgeMod(e))
      invariant forall e :: e in cloned ==> fresh(cloned[e])
      invariant forall e :: e in cloned ==> cloned[e].wallDoc == e.wallDoc
      invariant forall e :: e in cloned ==> cloned[e].State() == SeenState(e)
      invariant Injective(cloned)
    {
      var edge := candidates[i];
      var pass;
      ghost var prev := cloned;
      pass, cloned := WrappedCollisionTest(edge, test, cloned);
      if HasModifications(GetEdgeMod(edge)) {
        InjectiveUpdate(prev, edge, cloned[edge]);
      }
      if pass {
        result := result + {edge};
      }
      assert candidates[..i + 1] == candidates[..i] + [edge];
      i := i + 1;
    }
    assert candidates[..i] == candidates;
  }

  /** `getEdges_Wrapper`. The host's query finds the edges in the bounds
      (`candidates`) and keeps those its collision test accepts, or all of them when
      there is no test. Options without a test are forwarded as they are; a test is
      wrapped in a copy of the options. Every kept edge that was tested through a
      modified clone is replaced by that clone; no candidate is written. */
  method GetEdgesWrapper(candidates: seq<Edge>, argOption: Option<GetEdgesOptions>)
    returns (finalResult: set<Edge>, ghost clonedMap: map<Edge, Edge>)
    ensures argOption.None? || argOption.value.collisionTest.None? ==>
      clonedMap == map[] && finalResult == (set e | e in candidates)
    ensures argOption.Some? && argOption.value.collisionTest.Some? ==>
      && clonedMap.Keys == (set e | e in candidates && HasModifications(GetEdgeMod(e)))
      && (forall e :: e in clonedMap ==>
            fresh(clonedMap[e]) && clonedMap[e].wallDoc == e.wallDoc && clonedMap[e].State() == SeenState(e))
      && finalResult == (set e | e in candidates && argOption.value.collisionTest.value(SeenState(e)) :: Substitute(clonedMap, e))
      && |finalResult| == |(set e | e in candidates && argOption.value.collisionTest.value(SeenState(e)))|
  {
    if argOption.None? || argOption.value.collisionTest.None? {
      // The options go to the host unchanged (or stay undefined): no test, no clone.
      clonedMap := map[];
      finalResult := set e | e in candidates;
      return;
    }
    // A shallow copy of the options carries the wrapped test.
    var originalTest := argOption.value.collisionTest.value;
    var result, cloned := QueryWithWrappedTest(candidates, originalTest);
    clonedMap := cloned;
    if |cloned| == 0 {
      assert cloned == map[];
      assert result == set e | e in result :: Substitute(cloned, e);
      assert |result| == |(set e | e in candidates && originalTest(SeenState(e)))|;
      return result, clonedMap;
    }
    assert forall k :: k in cloned ==> cloned[k] !in result;
    finalResult := SubstituteClones(result, cloned);
    assert |finalResult| == |result|;
    assert result == (set e | e in candidates && argOption.value.collisionTest.value(SeenState(e)));
  }
}
