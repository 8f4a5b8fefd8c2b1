/** The second copy of the tool-order insertion sequence, in the scene-controls
    utilities. Its scans sit in the function that returns the generator; it is
    specified by the same insertion info as the first copy, so both copies produce
    generators of the same sequence for every input. */
module SceneControlsUtils {
  import opened ToolOrder

  /** `getToolOrderInsertionSequence`. */
  method GetToolOrderInsertionSequence(tools: seq<ToolEntry>, tailToolNames: seq<string>)
    returns (generator: SequenceGenerator)
    ensures fresh(generator) && generator.Valid() && generator.calls == 0
    ensures generator.info == InsertionInfoOf(tools, tailToolNames)
  {
    var lastIndex := -1.0;
    var tailToolIndex := -1.0;
    for i := 0 to |tools|
      invariant lastIndex == MaxOrder(tools[..i])
      invariant tailToolIndex == TailScan(tools[..i], tailToolNames)
    {
      assert tools[..i + 1][..i] == tools[..i];
      var order := tools[i].order;
      if order > lastIndex {
        lastIndex := order;
      }
      if tools[i].key !in tailToolNames {
        continue;
      }
      if tailToolIndex == -1.0 || order < tailToolIndex {
        tailToolIndex := order;
      }
    }
    assert tools[..|tools|] == tools;

    if tailToolIndex == -1.0 || tailToolIndex == 0.0 {
      generator := CreateSequenceGenerator(InsertionInfo(Max(lastIndex + 1.0, 0.0), 1.0));
      return;
    }

    lastIndex := -1.0;
    for i := 0 to |tools|
      invariant lastIndex == LastBelow(tools[..i], tailToolIndex)
    {
      assert tools[..i + 1][..i] == tools[..i];
      var order := tools[i].order;
      if order > lastIndex && order < tailToolIndex {
        lastIndex := order;
      }
    }
    assert tools[..|tools|] == tools;

    var step := (tailToolIndex - lastIndex) / 10.0;
    generator := CreateSequenceGenerator(InsertionInfo(Max(lastIndex + step, 0.0), step));
  }

  /** `createSequenceGenerator`. */
  method CreateSequenceGenerator(insertionInfo: InsertionInfo) returns (generator: SequenceGenerator)
    ensures fresh(generator) && generator.Valid() && generator.calls == 0
    ensures generator.info == insertionInfo && generator.currentIndex == insertionInfo.nextIndex
  {
    generator := new SequenceGenerator(insertionInfo);
  }
}
