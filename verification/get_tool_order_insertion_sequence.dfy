/** Insertion orders for new toolbar tools: after every existing tool, but before the
    named tail tools when they are present, spaced so that later insertions still fit. */
module ToolOrder {

  /** A tool of a scene control, by key, in the record's key order. */
  datatype ToolEntry = ToolEntry(key: string, order: real)

  /** Where the sequence starts and how far apart its values are. */
  datatype InsertionInfo = InsertionInfo(nextIndex: real, step: real)

  function Max(a: real, b: real): real
  {
    if a >= b then a else b
  }

  /** The first scan's `lastIndex`: -1, raised to every greater order met. */
  function MaxOrder(tools: seq<ToolEntry>): real
    decreases |tools|
  {
    if |tools| == 0 then -1.0
    else
      var m := MaxOrder(tools[..|tools| - 1]);
      var order := tools[|tools| - 1].order;
      if order > m then order else m
  }

  /** The first scan's `tailToolIndex`: -1 until a tail tool is met; then the order of a
      tail tool met while it is -1, or of one whose order is smaller. */
  function TailScan(tools: seq<ToolEntry>, tailToolNames: seq<string>): real
    decreases |tools|
  {
    if |tools| == 0 then -1.0
    else
      var t := TailScan(tools[..|tools| - 1], tailToolNames);
      var tool := tools[|tools| - 1];
      if tool.key in tailToolNames && (t == -1.0 || tool.order < t) then tool.order else t
  }

  /** The second scan's `lastIndex`: -1, raised to every greater order met that is
      below the tail order. */
  function LastBelow(tools: seq<ToolEntry>, tailToolIndex: real): real
    decreases |tools|
  {
    if |tools| == 0 then -1.0
    else
      var l := LastBelow(tools[..|tools| - 1], tailToolIndex);
      var order := tools[|tools| - 1].order;
      if order > l && order < tailToolIndex then order else l
  }

  /** The insertion info getToolOrderInsertionSequence hands to the generator. Without
      a tail tool (or with a tail order of 0) the sequence continues after the greatest
      order in steps of 1; otherwise it divides the gap between the greatest order
      below the tail and the tail order in ten. */
  function InsertionInfoOf(tools: seq<ToolEntry>, tailToolNames: seq<string>): InsertionInfo
  {
    var tailToolIndex := TailScan(tools, tailToolNames);
    if tailToolIndex == -1.0 || tailToolIndex == 0.0 then
      InsertionInfo(Max(MaxOrder(tools) + 1.0, 0.0), 1.0)
    else
      var lastIndex := LastBelow(tools, tailToolIndex);
      var step := (tailToolIndex - lastIndex) / 10.0;
      InsertionInfo(Max(lastIndex + step, 0.0), step)
  }

  /** MaxOrder is the greatest order, or -1 when every order is below -1 (or there are
      no tools). */
  lemma {:induction false} MaxOrderIsMaximum(tools: seq<ToolEntry>)
    ensures MaxOrder(tools) >= -1.0
    ensures forall i :: 0 <= i < |tools| ==> tools[i].order <= MaxOrder(tools)
    ensures MaxOrder(tools) == -1.0 || exists i :: 0 <= i < |tools| && tools[i].order == MaxOrder(tools)
    decreases |tools|
  {
    if |tools| > 0 {
      var prefix := tools[..|tools| - 1];
      MaxOrderIsMaximum(prefix);
      assert forall i :: 0 <= i < |prefix| ==> prefix[i] == tools[i];
      if MaxOrder(tools) != -1.0 && MaxOrder(tools) == MaxOrder(prefix) {
        var i :| 0 <= i < |prefix| && prefix[i].order == MaxOrder(prefix);
        assert tools[i].order == MaxOrder(tools);
      }
    }
  }

  /** Whether some tool is a tail tool. */
  predicate HasTailTool(tools: seq<ToolEntry>, tailToolNames: seq<string>)
  {
    exists i :: 0 <= i < |tools| && tools[i].key in tailToolNames
  }

  /** When no tail tool has order -1 (the scan's "none yet" value), TailScan is the
      smallest tail-tool order, and -1 exactly when there is no tail tool. */
  lemma {:induction false} TailScanIsMinimum(tools: seq<ToolEntry>, tailToolNames: seq<string>)
    requires forall i :: 0 <= i < |tools| && tools[i].key in tailToolNames ==> tools[i].order != -1.0
    ensures TailScan(tools, tailToolNames) == -1.0 <==> !HasTailTool(tools, tailToolNames)
    ensures forall i :: 0 <= i < |tools| && tools[i].key in tailToolNames ==>
      TailScan(tools, tailToolNames) <= tools[i].order
    ensures HasTailTool(tools, tailToolNames) ==>
      exists i :: 0 <= i < |tools| && tools[i].key in tailToolNames && tools[i].order == TailScan(tools, tailToolNames)
    decreases |tools|
  {
    if |tools| > 0 {
      var prefix := tools[..|tools| - 1];
      var last := tools[|tools| - 1];
      assert forall i :: 0 <= i < |prefix| ==> prefix[i] == tools[i];
      TailScanIsMinimum(prefix, tailToolNames);
      var t := TailScan(prefix, tailToolNames);
      if HasTailTool(prefix, tailToolNames) {
        var j :| 0 <= j < |prefix| && prefix[j].key in tailToolNames;
        assert tools[j].key in tailToolNames;
      }
      if HasTailTool(tools, tailToolNames) && TailScan(tools, tailToolNames) == t {
        if !(last.key in tailToolNames && t == last.order) {
          var j :| 0 <= j < |tools| && tools[j].key in tailToolNames;
          if j == |tools| - 1 {
            assert t != -1.0;
          }
          assert HasTailTool(prefix, tailToolNames) by {
            if j < |tools| - 1 { assert prefix[j].key in tailToolNames; }
          }
          var i :| 0 <= i < |prefix| && prefix[i].key in tailToolNames && prefix[i].order == t;
          assert tools[i].key in tailToolNames && tools[i].order == t;
        }
      }
    }
  }

  /** The "none yet" value -1 is also a possible order: a first tail tool at -1 is
      overridden by the next tail tool met, so the scan can miss the smallest order. */
  lemma TailSentinelExample()
    ensures TailScan([ToolEntry("a", -1.0), ToolEntry("b", 5.0)], ["a", "b"]) == 5.0
  {
    var tools := [ToolEntry("a", -1.0), ToolEntry("b", 5.0)];
    assert tools[..1] == [ToolEntry("a", -1.0)];
    assert tools[..1][..0] == [];
  }

  /** LastBelow is the greatest order strictly between -1 and the tail order, or -1
      when there is none. */
  lemma {:induction false} LastBelowIsGreatestBelow(tools: seq<ToolEntry>, tailToolIndex: real)
    ensures LastBelow(tools, tailToolIndex) >= -1.0
    ensures forall i :: 0 <= i < |tools| && -1.0 < tools[i].order < tailToolIndex ==>
      tools[i].order <= LastBelow(tools, tailToolIndex)
    ensures LastBelow(tools, tailToolIndex) == -1.0 ||
      exists i :: 0 <= i < |tools| && tools[i].order == LastBelow(tools, tailToolIndex) && tools[i].order < tailToolIndex
    decreases |tools|
  {
    if |tools| > 0 {
      var prefix := tools[..|tools| - 1];
      LastBelowIsGreatestBelow(prefix, tailToolIndex);
      assert forall i :: 0 <= i < |prefix| ==> prefix[i] == tools[i];
      var l := LastBelow(prefix, tailToolIndex);
      if LastBelow(tools, tailToolIndex) != -1.0 && LastBelow(tools, tailToolIndex) == l {
        var i :| 0 <= i < |prefix| && prefix[i].order == l && prefix[i].order < tailToolIndex;
        assert tools[i].order == l;
      }
    }
  }

  /** Without tools the sequence starts at 0 in steps of 1. */
  lemma EmptyToolsInsertionInfo(tailToolNames: seq<string>)
    ensures InsertionInfoOf([], tailToolNames) == InsertionInfo(0.0, 1.0)
  {
  }

  /** Without a tail tool (or with a tail order of 0) new tools go after every existing
      tool, in steps of 1, never below 0. */
  lemma AppendCase(tools: seq<ToolEntry>, tailToolNames: seq<string>)
    requires TailScan(tools, tailToolNames) == -1.0 || TailScan(tools, tailToolNames) == 0.0
    ensures InsertionInfoOf(tools, tailToolNames).step == 1.0
    ensures InsertionInfoOf(tools, tailToolNames).nextIndex >= 0.0
    ensures forall i :: 0 <= i < |tools| ==> tools[i].order < InsertionInfoOf(tools, tailToolNames).nextIndex
  {
    MaxOrderIsMaximum(tools);
  }

  /** With a tail order t other than -1 and 0, the step is positive exactly when t is
      above -1; it is a tenth of the gap between the greatest order below t (or -1) and
      t. */
  lemma TailCaseStep(tools: seq<ToolEntry>, tailToolNames: seq<string>)
    requires TailScan(tools, tailToolNames) != -1.0 && TailScan(tools, tailToolNames) != 0.0
    ensures var t := TailScan(tools, tailToolNames);
      var info := InsertionInfoOf(tools, tailToolNames);
      && (info.step > 0.0 <==> t > -1.0)
      && 10.0 * info.step == t - LastBelow(tools, t)
      && info.nextIndex == Max(LastBelow(tools, t) + info.step, 0.0)
  {
    var t := TailScan(tools, tailToolNames);
    LastBelowIsGreatestBelow(tools, t);
    if t > -1.0 {
      var l := LastBelow(tools, t);
      if l != -1.0 {
        var i :| 0 <= i < |tools| && tools[i].order == l && tools[i].order < t;
      }
      assert l < t;
    }
  }

  /** The k-th value the generator returns (counting from 0). */
  function Nth(info: InsertionInfo, k: nat): real
  {
    info.nextIndex + (k as real) * info.step
  }

  /** With a positive step the generated values strictly increase. */
  lemma NthIncreasing(info: InsertionInfo, j: nat, k: nat)
    requires info.step > 0.0 && j < k
    ensures Nth(info, j) < Nth(info, k)
  {
    assert Nth(info, k) - Nth(info, j) == ((k - j) as real) * info.step;
    assert ((k - j) as real) * info.step > 0.0;
  }

  /** The promise of the tail case: when the tail order t is above -1 and the start
      does not have to be raised to 0, the first nine values lie strictly between every
      order below t and t itself, and the tenth would reach t. */
  lemma BeforeTailTools(tools: seq<ToolEntry>, tailToolNames: seq<string>, k: nat)
    requires TailScan(tools, tailToolNames) > -1.0 && TailScan(tools, tailToolNames) != 0.0
    requires LastBelow(tools, TailScan(tools, tailToolNames)) + InsertionInfoOf(tools, tailToolNames).step >= 0.0
    requires k < 9
    ensures var t := TailScan(tools, tailToolNames);
      var v := Nth(InsertionInfoOf(tools, tailToolNames), k);
      && LastBelow(tools, t) < v < t
      && (forall i :: 0 <= i < |tools| && -1.0 < tools[i].order < t ==> tools[i].order < v)
    ensures Nth(InsertionInfoOf(tools, tailToolNames), 9) == TailScan(tools, tailToolNames)
  {
    var t := TailScan(tools, tailToolNames);
    var info := InsertionInfoOf(tools, tailToolNames);
    var l := LastBelow(tools, t);
    TailCaseStep(tools, tailToolNames);
    LastBelowIsGreatestBelow(tools, t);
    StepsWithinGap(l, t, info, k);
  }

  /** The arithmetic of the tail case: a start one positive step above l, with ten
      steps spanning l to t, keeps the first nine values strictly inside and reaches t
      at the tenth. */
  lemma StepsWithinGap(l: real, t: real, info: InsertionInfo, k: nat)
    requires info.step > 0.0 && 10.0 * info.step == t - l && info.nextIndex == l + info.step && k < 9
    ensures l < Nth(info, k) < t
    ensures Nth(info, 9) == t
  {
    var kr := k as real;
    ScaleMonotone(0.0, kr, info.step);
    ScaleMonotone(kr, 8.0, info.step);
    assert Nth(info, k) == l + info.step + kr * info.step;
  }

  lemma ScaleMonotone(a: real, b: real, c: real)
    requires a <= b && c > 0.0
    ensures a * c <= b * c
  {
  }

  /** The two scans of getToolOrderInsertionSequence: the first finds the greatest
      order and the tail order; without a tail tool (or with a tail order of 0) the
      result follows, otherwise the second finds the greatest order below the tail.
      The tools are only read. */
  method GetInsertionInfo(tools: seq<ToolEntry>, tailToolNames: seq<string>) returns (info: InsertionInfo)
    ensures info == InsertionInfoOf(tools, tailToolNames)
  {
    var lastIndex := -1.0;
    var tailToolIndex := -1.0;
    var i := 0;
    while i < |tools|
      invariant 0 <= i <= |tools|
      invariant lastIndex == MaxOrder(tools[..i])
      invariant tailToolIndex == TailScan(tools[..i], tailToolNames)
    {
      assert tools[..i + 1][..i] == tools[..i];
      var order := tools[i].order;
      if order > lastIndex {
        lastIndex := order;
      }
      if tools[i].key in tailToolNames && (tailToolIndex == -1.0 || order < tailToolIndex) {
        tailToolIndex := order;
      }
      i := i + 1;
    }
    assert tools[..i] == tools;

    if tailToolIndex == -1.0 || tailToolIndex == 0.0 {
      return InsertionInfo(Max(lastIndex + 1.0, 0.0), 1.0);
    }

    lastIndex := -1.0;
    i := 0;
    while i < |tools|
      invariant 0 <= i <= |tools|
      invariant lastIndex == LastBelow(tools[..i], tailToolIndex)
    {
      assert tools[..i + 1][..i] == tools[..i];
      var order := tools[i].order;
      if order > lastIndex && order < tailToolIndex {
        lastIndex := order;
      }
      i := i + 1;
    }
    assert tools[..i] == tools;

    var step := (tailToolIndex - lastIndex) / 10.0;
    info := InsertionInfo(Max(lastIndex + step, 0.0), step);
  }

  /** The generator closure: returns the current index, then advances it by the step. */
  class SequenceGenerator {
    var currentIndex: real
    const step: real
    ghost const info: InsertionInfo
    ghost var calls: nat

    ghost predicate Valid()
      reads this
    {
      step == info.step && currentIndex == Nth(info, calls)
    }

    /** `createSequenceGenerator`. */
    constructor (insertionInfo: InsertionInfo)
      ensures Valid() && info == insertionInfo && calls == 0
    {
      currentIndex := insertionInfo.nextIndex;
      step := insertionInfo.step;
      info := insertionInfo;
      calls := 0;
    }

    /** One call of the generator: the n-th call returns Nth(info, n). */
    method Next() returns (index: real)
      requires Valid()
      modifies this
      ensures Valid() && calls == old(calls) + 1
      ensures index == Nth(info, old(calls)) && currentIndex == index + step
    {
      index := currentIndex;
      currentIndex := currentIndex + step;
      calls := calls + 1;
      assert (calls as real) * step == ((calls - 1) as real) * step + step;
    }
  }

  /** `getToolOrderInsertionSequence`: a fresh generator over the tools' insertion info. */
  method GetToolOrderInsertionSequence(tools: seq<ToolEntry>, tailToolNames: seq<string>)
    returns (generator: SequenceGenerator)
    ensures fresh(generator) && generator.Valid() && generator.calls == 0
    ensures generator.info == InsertionInfoOf(tools, tailToolNames)
  {
    var info := GetInsertionInfo(tools, tailToolNames);
    generator := new SequenceGenerator(info);
  }
}
