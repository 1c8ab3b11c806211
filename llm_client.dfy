/** The streaming completion engine of the chat client: reassembling tool
    calls from index-tagged fragments, classifying the chunks of one
    streamed response, and the round loop that alternates between the
    model and the tools.

    The completion service is a finite script of responses, one per
    request; each response is a finite sequence of chunks, optionally
    followed by a failure (an exception raised while creating or reading
    the stream). Tool execution is the dispatcher of module Tools, and
    `json.dumps` of a tool call is an opaque encoder. */
module LlmClient {
  import opened Wrappers
  import opened Text
  import opened Messages
  import opened Tools

  // ---------------------------------------------------------------------
  // Merging tool-call fragments

  /** One `ChoiceDeltaToolCall`: its `index`, and its `id`, function name
      and arguments, each "" when absent (the merger skips falsy values,
      so an absent and an empty field behave alike). */
  datatype ToolCallDelta = ToolCallDelta(index: nat, id: string, name: string, arguments: string)

  /** The slot `_merge_tool_calls` appends to pad the list: no id, an empty
      name and empty arguments. */
  const Placeholder := ToolCall("", "function", "", "")

  /** How many slots the merger has after reading `fs`: one more than the
      largest index seen, 0 for no fragments. */
  function Width(fs: seq<ToolCallDelta>): nat
  {
    if fs == [] then 0
    else
      var w := Width(fs[..|fs| - 1]);
      var need := fs[|fs| - 1].index + 1;
      if w < need then need else w
  }

  /** The id of slot `j`: the last non-empty id among the fragments with
      index `j`, "" when there is none. */
  function LastId(fs: seq<ToolCallDelta>, j: nat): string
  {
    if fs == [] then ""
    else
      var f := fs[|fs| - 1];
      if f.index == j && f.id != "" then f.id else LastId(fs[..|fs| - 1], j)
  }

  /** The name of slot `j`: the names of the fragments with index `j`,
      concatenated in arrival order. */
  function NameAt(fs: seq<ToolCallDelta>, j: nat): string
  {
    if fs == [] then ""
    else
      var f := fs[|fs| - 1];
      NameAt(fs[..|fs| - 1], j) + (if f.index == j then f.name else "")
  }

  /** The arguments of slot `j`, concatenated in arrival order. */
  function ArgumentsAt(fs: seq<ToolCallDelta>, j: nat): string
  {
    if fs == [] then ""
    else
      var f := fs[|fs| - 1];
      ArgumentsAt(fs[..|fs| - 1], j) + (if f.index == j then f.arguments else "")
  }

  /** Slot `j` after reading `fs`. */
  function SlotAt(fs: seq<ToolCallDelta>, j: nat): ToolCall
  {
    ToolCall(LastId(fs, j), "function", NameAt(fs, j), ArgumentsAt(fs, j))
  }

  /** `[m for m in merged if m.get("id")]` */
  function Complete(slots: seq<ToolCall>): (r: seq<ToolCall>)
    ensures |r| <= |slots|
    ensures forall k :: 0 <= k < |r| ==> r[k].id != ""
  {
    if slots == [] then []
    else
      var last := slots[|slots| - 1];
      Complete(slots[..|slots| - 1]) + (if last.id != "" then [last] else [])
  }

  /** All slots after reading `fs`. */
  function Slots(fs: seq<ToolCallDelta>): (r: seq<ToolCall>)
    ensures |r| == Width(fs)
    ensures forall j :: 0 <= j < |r| ==> r[j] == SlotAt(fs, j)
  {
    seq(Width(fs), j requires 0 <= j < Width(fs) => SlotAt(fs, j))
  }

  /** The tool calls the merger returns for the fragments `fs`. */
  function MergedCalls(fs: seq<ToolCallDelta>): seq<ToolCall>
  {
    Complete(Slots(fs))
  }

  /** `_merge_tool_calls`: grows `merged` with placeholder slots up to each
      fragment's index, then updates that slot in place. */
  method MergeToolCalls(toolCalls: seq<ToolCallDelta>) returns (calls: seq<ToolCall>)
    ensures calls == MergedCalls(toolCalls)
  {
    var merged: seq<ToolCall> := [];
    for i := 0 to |toolCalls|
      invariant |merged| == Width(toolCalls[..i])
      invariant forall j :: 0 <= j < |merged| ==> merged[j] == SlotAt(toolCalls[..i], j)
    {
      assert toolCalls[..i + 1] == toolCalls[..i] + [toolCalls[i]];
      merged := MergeOne(merged, toolCalls[..i], toolCalls[i]);
    }
    assert toolCalls[..|toolCalls|] == toolCalls;
    assert merged == Slots(toolCalls);
    calls := Complete(merged);
  }

  /** One iteration of the merging loop: pads `merged` up to the
      fragment's index, then folds the fragment into that slot. */
  method MergeOne(merged: seq<ToolCall>, ghost prefix: seq<ToolCallDelta>, toolCall: ToolCallDelta) returns (merged': seq<ToolCall>)
    requires |merged| == Width(prefix)
    requires forall j :: 0 <= j < |merged| ==> merged[j] == SlotAt(prefix, j)
    ensures |merged'| == Width(prefix + [toolCall])
    ensures forall j :: 0 <= j < |merged'| ==> merged'[j] == SlotAt(prefix + [toolCall], j)
  {
    assert (prefix + [toolCall])[..|prefix|] == prefix;
    merged' := merged;
    var idx := toolCall.index;
    while idx >= |merged'|
      invariant |merged'| <= if Width(prefix) < idx + 1 then idx + 1 else Width(prefix)
      invariant |merged'| >= Width(prefix)
      invariant forall j :: 0 <= j < |merged'| ==> merged'[j] == SlotAt(prefix, j)
      decreases idx + 1 - |merged'|
    {
      SlotBeyondWidth(prefix, |merged'|);
      merged' := merged' + [Placeholder];
    }
    var current := merged'[idx];
    if toolCall.id != "" {
      current := current.(id := toolCall.id);
    }
    if toolCall.name != "" {
      current := current.(name := current.name + toolCall.name);
    }
    if toolCall.arguments != "" {
      current := current.(arguments := current.arguments + toolCall.arguments);
    }
    merged' := merged'[idx := current];
    forall j | 0 <= j < |merged'| ensures merged'[j] == SlotAt(prefix + [toolCall], j) {
      SlotStep(prefix, toolCall, j);
    }
  }

  /** A slot no fragment has reached yet is still a placeholder. */
  lemma {:induction false} SlotBeyondWidth(fs: seq<ToolCallDelta>, j: nat)
    requires j >= Width(fs)
    ensures SlotAt(fs, j) == Placeholder
  {
    if fs != [] {
      SlotBeyondWidth(fs[..|fs| - 1], j);
    }
  }

  /** Reading one more fragment changes only the slot of its index. */
  lemma SlotStep(fs: seq<ToolCallDelta>, f: ToolCallDelta, j: nat)
    ensures SlotAt(fs + [f], j) ==
              if f.index != j then SlotAt(fs, j)
              else ToolCall(if f.id != "" then f.id else LastId(fs, j), "function",
                            NameAt(fs, j) + f.name, ArgumentsAt(fs, j) + f.arguments)
  {
    assert (fs + [f])[..|fs|] == fs;
  }

  /** The positions of the slots that have an id, in increasing order. */
  function FilledIndices(slots: seq<ToolCall>): (r: seq<nat>)
    ensures forall k :: 0 <= k < |r| ==> r[k] < |slots| && slots[r[k]].id != ""
    ensures forall k, l :: 0 <= k < l < |r| ==> r[k] < r[l]
  {
    if slots == [] then []
    else
      var init := slots[..|slots| - 1];
      var r := FilledIndices(init);
      assert forall j :: 0 <= j < |init| ==> init[j] == slots[j];
      r + (if slots[|slots| - 1].id != "" then [|slots| - 1] else [])
  }

  /** Every slot that has an id is among the filled positions. */
  lemma FilledIndicesComplete(slots: seq<ToolCall>)
    ensures forall j :: 0 <= j < |slots| && slots[j].id != "" ==> j in FilledIndices(slots)
  {
    forall j | 0 <= j < |slots| && slots[j].id != "" ensures j in FilledIndices(slots) {
      FilledIndexAt(slots, j);
    }
  }

  lemma {:induction false} FilledIndexAt(slots: seq<ToolCall>, j: nat)
    requires j < |slots| && slots[j].id != ""
    ensures j in FilledIndices(slots)
  {
    var init := slots[..|slots| - 1];
    var tail := if slots[|slots| - 1].id != "" then [|slots| - 1] else [];
    assert FilledIndices(slots) == FilledIndices(init) + tail;
    if j < |slots| - 1 {
      assert init[j] == slots[j];
      FilledIndexAt(init, j);
    } else {
      assert tail == [j];
    }
  }

  /** The complete calls are exactly the slots with an id, in slot order. */
  lemma {:induction false} CompleteIsFilledSlots(slots: seq<ToolCall>)
    ensures |Complete(slots)| == |FilledIndices(slots)|
    ensures forall k :: 0 <= k < |Complete(slots)| ==> Complete(slots)[k] == slots[FilledIndices(slots)[k]]
  {
    if slots != [] {
      var init := slots[..|slots| - 1];
      var last := slots[|slots| - 1];
      CompleteIsFilledSlots(init);
      var c, f := Complete(init), FilledIndices(init);
      var tail := if last.id != "" then [last] else [];
      var tailIx := if last.id != "" then [|slots| - 1] else [];
      assert Complete(slots) == c + tail;
      assert FilledIndices(slots) == f + tailIx;
      forall k | 0 <= k < |Complete(slots)| ensures Complete(slots)[k] == slots[FilledIndices(slots)[k]] {
        if k < |c| {
          assert Complete(slots)[k] == c[k] == init[f[k]];
          assert FilledIndices(slots)[k] == f[k] < |init|;
        }
      }
    }
  }

  /** The merged calls are the slots, in increasing index order, that
      acquired a non-empty id; each one's name and arguments are the
      concatenations of its index's fragments, and its type is
      "function". Padding slots that never got an id are dropped. */
  lemma MergedCallsBySlot(fs: seq<ToolCallDelta>)
    ensures var ix := FilledIndices(Slots(fs));
      && |MergedCalls(fs)| == |ix|
      && (forall k :: 0 <= k < |ix| ==> ix[k] < Width(fs) && LastId(fs, ix[k]) != "" && MergedCalls(fs)[k] == SlotAt(fs, ix[k]))
      && (forall k, l :: 0 <= k < l < |ix| ==> ix[k] < ix[l])
      && (forall j :: 0 <= j < Width(fs) && LastId(fs, j) != "" ==> j in ix)
      && (forall k :: 0 <= k < |MergedCalls(fs)| ==> MergedCalls(fs)[k].callType == "function")
  {
    var slots := Slots(fs);
    var ix := FilledIndices(slots);
    CompleteIsFilledSlots(slots);
    FilledIndicesComplete(slots);
    assert forall k :: 0 <= k < |ix| ==> slots[ix[k]] == SlotAt(fs, ix[k]);
    forall j | 0 <= j < Width(fs) && LastId(fs, j) != "" ensures j in ix {
      assert slots[j].id == LastId(fs, j);
    }
  }

  /** The id of a slot is one that a fragment of that index carried, and no
      later fragment of that index carried another. */
  lemma {:induction false} LastIdIsLastFragmentId(fs: seq<ToolCallDelta>, j: nat)
    ensures LastId(fs, j) != "" ==>
              exists i :: 0 <= i < |fs| && fs[i].index == j && fs[i].id == LastId(fs, j)
                && forall l :: i < l < |fs| && fs[l].index == j ==> fs[l].id == ""
    ensures LastId(fs, j) == "" ==> forall i :: 0 <= i < |fs| && fs[i].index == j ==> fs[i].id == ""
  {
    if fs != [] {
      var init := fs[..|fs| - 1];
      var f := fs[|fs| - 1];
      LastIdIsLastFragmentId(init, j);
      assert forall i :: 0 <= i < |init| ==> init[i] == fs[i];
      if !(f.index == j && f.id != "") && LastId(fs, j) != "" {
        var i :| 0 <= i < |init| && init[i].index == j && init[i].id == LastId(init, j)
                 && forall l :: i < l < |init| && init[l].index == j ==> init[l].id == "";
        assert fs[i] == init[i];
      }
    }
  }

  /** Splitting the fragment stream in two: names and arguments
      concatenate, and the later part's id wins. */
  lemma {:induction false} SlotOfAppend(fs: seq<ToolCallDelta>, gs: seq<ToolCallDelta>, j: nat)
    ensures NameAt(fs + gs, j) == NameAt(fs, j) + NameAt(gs, j)
    ensures ArgumentsAt(fs + gs, j) == ArgumentsAt(fs, j) + ArgumentsAt(gs, j)
    ensures LastId(fs + gs, j) == if LastId(gs, j) != "" then LastId(gs, j) else LastId(fs, j)
  {
    NameOfAppend(fs, gs, j);
    ArgumentsOfAppend(fs, gs, j);
    LastIdOfAppend(fs, gs, j);
  }

  lemma {:induction false} NameOfAppend(fs: seq<ToolCallDelta>, gs: seq<ToolCallDelta>, j: nat)
    ensures NameAt(fs + gs, j) == NameAt(fs, j) + NameAt(gs, j)
    decreases |gs|
  {
    if gs == [] {
      assert fs + gs == fs;
    } else {
      var ginit := gs[..|gs| - 1];
      assert (fs + gs)[..|fs + gs| - 1] == fs + ginit;
      assert (fs + gs)[|fs + gs| - 1] == gs[|gs| - 1];
      NameOfAppend(fs, ginit, j);
    }
  }

  lemma {:induction false} ArgumentsOfAppend(fs: seq<ToolCallDelta>, gs: seq<ToolCallDelta>, j: nat)
    ensures ArgumentsAt(fs + gs, j) == ArgumentsAt(fs, j) + ArgumentsAt(gs, j)
    decreases |gs|
  {
    if gs == [] {
      assert fs + gs == fs;
    } else {
      var ginit := gs[..|gs| - 1];
      assert (fs + gs)[..|fs + gs| - 1] == fs + ginit;
      assert (fs + gs)[|fs + gs| - 1] == gs[|gs| - 1];
      ArgumentsOfAppend(fs, ginit, j);
    }
  }

  lemma {:induction false} LastIdOfAppend(fs: seq<ToolCallDelta>, gs: seq<ToolCallDelta>, j: nat)
    ensures LastId(fs + gs, j) == if LastId(gs, j) != "" then LastId(gs, j) else LastId(fs, j)
    decreases |gs|
  {
    if gs == [] {
      assert fs + gs == fs;
    } else {
      var ginit := gs[..|gs| - 1];
      assert (fs + gs)[..|fs + gs| - 1] == fs + ginit;
      assert (fs + gs)[|fs + gs| - 1] == gs[|gs| - 1];
      LastIdOfAppend(fs, ginit, j);
    }
  }

  /** Fragments of other indices do not affect a slot. */
  lemma {:induction false} OtherIndicesIrrelevant(fs: seq<ToolCallDelta>, j: nat)
    requires forall i :: 0 <= i < |fs| ==> fs[i].index != j
    ensures SlotAt(fs, j) == Placeholder
  {
    if fs != [] {
      OtherIndicesIrrelevant(fs[..|fs| - 1], j);
    }
  }

  /** A name split across fragments, arguments in a later fragment and the
      id last: one complete call, whichever of the orders below the
      fragments arrive in. */
  lemma MergeExample()
    ensures MergedCalls([ToolCallDelta(0, "", "f", ""), ToolCallDelta(0, "", "", "{\"a\":1}"), ToolCallDelta(0, "call_1", "", "")])
            == [ToolCall("call_1", "function", "f", "{\"a\":1}")]
    ensures MergedCalls([ToolCallDelta(0, "call_1", "", ""), ToolCallDelta(0, "", "f", ""), ToolCallDelta(0, "", "", "{\"a\":1}")])
            == [ToolCall("call_1", "function", "f", "{\"a\":1}")]
  {
    var named := ToolCallDelta(0, "", "f", "");
    var argued := ToolCallDelta(0, "", "", "{\"a\":1}");
    var identified := ToolCallDelta(0, "call_1", "", "");
    SlotZeroOfThree(named, argued, identified);
    SlotZeroOfThree(identified, named, argued);
    var call := ToolCall("call_1", "function", "f", "{\"a\":1}");
    assert "f" + "" + "" == "" + "f" + "" == "f";
    assert "" + "{\"a\":1}" + "" == "" + "" + "{\"a\":1}" == "{\"a\":1}";
    assert [call][..0] == [];
    assert Complete([call]) == [call];
  }

  lemma SlotZeroOfThree(f: ToolCallDelta, g: ToolCallDelta, h: ToolCallDelta)
    requires f.index == 0 && g.index == 0 && h.index == 0
    ensures MergedCalls([f, g, h]) ==
              Complete([ToolCall(if h.id != "" then h.id else if g.id != "" then g.id else f.id, "function",
                                 f.name + g.name + h.name, f.arguments + g.arguments + h.arguments)])
  {
    var fs := [f, g, h];
    assert fs[..2] == [f, g] && [f, g][..1] == [f] && [f][..0] == [];
    assert Width([f]) == 1;
    assert Width([f, g]) == 1;
    assert Width(fs) == 1;
    assert LastId([f], 0) == f.id;
    assert NameAt([f], 0) == NameAt([], 0) + f.name == f.name;
    assert ArgumentsAt([f], 0) == ArgumentsAt([], 0) + f.arguments == f.arguments;
    assert SlotAt([f, g], 0) == ToolCall(if g.id != "" then g.id else f.id, "function", f.name + g.name, f.arguments + g.arguments);
    assert Slots(fs) == [SlotAt(fs, 0)];
  }

  lemma {:induction false} CompleteOfIdless(slots: seq<ToolCall>)
    requires forall j :: 0 <= j < |slots| ==> slots[j].id == ""
    ensures Complete(slots) == []
  {
    if slots != [] {
      CompleteOfIdless(slots[..|slots| - 1]);
    }
  }

  /** A slot that only ever received padding or fragments without an id is
      not in the output. */
  lemma NoIdNoCall(fs: seq<ToolCallDelta>)
    requires forall i :: 0 <= i < |fs| ==> fs[i].id == ""
    ensures MergedCalls(fs) == []
  {
    var slots := Slots(fs);
    forall j | 0 <= j < Width(fs) ensures slots[j].id == "" {
      LastIdIsLastFragmentId(fs, j);
    }
    CompleteOfIdless(slots);
  }
  // ---------------------------------------------------------------------
  // Classifying the chunks of one streamed response

  /** `EventType` */
  datatype EventType = Thinking | Content | ToolUse | ToolComplete | Error

  /** The literal each event type is spelled as. */
  function TypeName(t: EventType): string
  {
    match t
    case Thinking => "thinking"
    case Content => "content"
    case ToolUse => "tool_call"
    case ToolComplete => "tool_complete"
    case Error => "error"
  }

  /** `StreamEvent(type, data)` */
  datatype StreamEvent = StreamEvent(kind: EventType, data: string)

  /** The part of a chunk's delta the client reads; each text is "" when
      absent. */
  datatype Delta = Delta(reasoningContent: string, content: string, refusal: string, toolCalls: seq<ToolCallDelta>)

  /** `choices[0]`: its `finish_reason` ("" for None), its delta, and the
      JSON text of its `content_filter_results` ("" when absent or empty). */
  datatype Choice = Choice(finishReason: string, delta: Delta, contentFilterResults: string)

  datatype Chunk = Chunk(choices: seq<Choice>)

  /** One scripted response: the chunks the stream delivers, then, when
      `failure` is present, the exception raised while reading on (a
      response whose creation fails has no chunks). */
  datatype Response = Response(chunks: seq<Chunk>, failure: Option<string>)

  /** How reading one response ended. */
  datatype RoundEnd =
    | Stopped        // finish_reason "stop": the turn is over
    | Halted         // finish_reason "length" or "content_filter"
    | EmptyChoices   // a chunk without choices ended the stream
    | EndOfStream    // the chunks ran out
    | Failed(message: string)

  datatype RoundResult = RoundResult(events: seq<StreamEvent>, fragments: seq<ToolCallDelta>, end: RoundEnd)

  /** The finish reasons that end the stream with an error event. */
  predicate HaltReason(reason: string)
  {
    reason == "length" || reason == "content_filter"
  }

  /** The error text of a `length` or `content_filter` finish: the refusal
      when there is one, otherwise the content-filter results. */
  function StopMessage(choice: Choice): (text: string)
    ensures "Generation stopped (" <= text
  {
    var detail :=
      if choice.delta.refusal != "" then ": " + choice.delta.refusal
      else if choice.contentFilterResults != "" then ": " + choice.contentFilterResults
      else "";
    "Generation stopped (" + choice.finishReason + ")" + detail
  }

  /** The events one ordinary delta yields: reasoning first, then content. */
  function DeltaEvents(d: Delta): seq<StreamEvent>
  {
    (if d.reasoningContent != "" then [StreamEvent(Thinking, d.reasoningContent)] else [])
    + (if d.content != "" then [StreamEvent(Content, d.content)] else [])
  }

  /** Prefixes events and fragments to the result of reading the rest. */
  function Prefixed(events: seq<StreamEvent>, fragments: seq<ToolCallDelta>, r: RoundResult): RoundResult
  {
    RoundResult(events + r.events, fragments + r.fragments, r.end)
  }

  /** What reading the chunks of one response yields. */
  function ReadStream(chunks: seq<Chunk>, failure: Option<string>): RoundResult
  {
    if chunks == [] then RoundResult([], [], if failure.Some? then Failed(failure.value) else EndOfStream)
    else if chunks[0].choices == [] then RoundResult([], [], EmptyChoices)
    else
      var choice := chunks[0].choices[0];
      if choice.finishReason == "stop" then RoundResult([], [], Stopped)
      else if HaltReason(choice.finishReason) then
        RoundResult([StreamEvent(Error, StopMessage(choice))], [], Halted)
      else
        Prefixed(DeltaEvents(choice.delta), choice.delta.toolCalls, ReadStream(chunks[1..], failure))
  }

  lemma PrefixedNothing(r: RoundResult)
    ensures Prefixed([], [], r) == r
  {
    assert [] + r.events == r.events && [] + r.fragments == r.fragments;
  }

  lemma PrefixedTwice(e1: seq<StreamEvent>, e2: seq<StreamEvent>, f1: seq<ToolCallDelta>, f2: seq<ToolCallDelta>, r: RoundResult)
    ensures Prefixed(e1, f1, Prefixed(e2, f2, r)) == Prefixed(e1 + e2, f1 + f2, r)
  {
    assert e1 + (e2 + r.events) == (e1 + e2) + r.events;
    assert f1 + (f2 + r.fragments) == (f1 + f2) + r.fragments;
  }

  /** Reading from chunk `i` on unfolds into chunk `i` and the chunks after
      it. */
  lemma ReadStreamAt(chunks: seq<Chunk>, i: nat, failure: Option<string>)
    requires i < |chunks|
    ensures chunks[i].choices == [] ==> ReadStream(chunks[i..], failure) == RoundResult([], [], EmptyChoices)
    ensures chunks[i].choices != [] ==>
      var choice := chunks[i].choices[0];
      ReadStream(chunks[i..], failure) ==
        if choice.finishReason == "stop" then RoundResult([], [], Stopped)
        else if HaltReason(choice.finishReason) then RoundResult([StreamEvent(Error, StopMessage(choice))], [], Halted)
        else Prefixed(DeltaEvents(choice.delta), choice.delta.toolCalls, ReadStream(chunks[i + 1..], failure))
  {
    assert chunks[i..][0] == chunks[i] && chunks[i..][1..] == chunks[i + 1..];
  }

  /** The `async for chunk in response` loop of `stream_completion`: it
      yields thinking and content events as they arrive and gathers the
      tool-call fragments. */
  method ConsumeStream(response: Response) returns (events: seq<StreamEvent>, fragments: seq<ToolCallDelta>, end: RoundEnd)
    ensures RoundResult(events, fragments, end) == ReadStream(response.chunks, response.failure)
  {
    var chunks := response.chunks;
    events := [];
    fragments := [];
    var i := 0;
    assert chunks[i..] == chunks;
    PrefixedNothing(ReadStream(chunks, response.failure));
    while i < |chunks|
      invariant 0 <= i <= |chunks|
      invariant ReadStream(chunks, response.failure) == Prefixed(events, fragments, ReadStream(chunks[i..], response.failure))
    {
      ReadStreamAt(chunks, i, response.failure);
      var chunk := chunks[i];
      if chunk.choices == [] {
        end := EmptyChoices;
        assert events + [] == events && fragments + [] == fragments;
        return;
      }
      var choice := chunk.choices[0];
      var delta := choice.delta;
      if choice.finishReason == "stop" {
        end := Stopped;
        assert events + [] == events && fragments + [] == fragments;
        return;
      }
      if HaltReason(choice.finishReason) {
        events := events + [StreamEvent(Error, StopMessage(choice))];
        end := Halted;
        assert fragments + [] == fragments;
        return;
      }
      ghost var before := events;
      if delta.reasoningContent != "" {
        events := events + [StreamEvent(Thinking, delta.reasoningContent)];
      }
      if delta.content != "" {
        events := events + [StreamEvent(Content, delta.content)];
      }
      assert events == before + DeltaEvents(delta);
      PrefixedTwice(before, DeltaEvents(delta), fragments, delta.toolCalls, ReadStream(chunks[i + 1..], response.failure));
      fragments := fragments + delta.toolCalls;
      i := i + 1;
    }
    end := if response.failure.Some? then Failed(response.failure.value) else EndOfStream;
    assert chunks[i..] == [];
    assert events + [] == events && fragments + [] == fragments;
  }

  // ---------------------------------------------------------------------
  // The round loop of `stream_completion`

  /** What the round loop cannot see: the tool registry the executor runs
      calls against, and the JSON text `json.dumps` gives for a merged
      call. */
  datatype Env = Env(box: Toolbox, encodeCall: ToolCall -> string)

  /** `Finished`: the generator returned. `Exhausted`: the scripted
      transport had no response left for the next request. */
  datatype TurnEnd = Finished | Exhausted

  /** Everything one `stream_completion` call yields, every message list it
      sends, and how it ended. */
  datatype Turn = Turn(events: seq<StreamEvent>, requests: seq<seq<Message>>, end: TurnEnd)

  function Then(events: seq<StreamEvent>, request: seq<Message>, t: Turn): Turn
  {
    Turn(events + t.events, [request] + t.requests, t.end)
  }

  /** `f"Maximum tool rounds reached ({max_tool_rounds})"` */
  function RoundLimitMessage(maxToolRounds: int): string
  {
    "Maximum tool rounds reached (" + IntToString(maxToolRounds) + ")"
  }

  /** One `tool_call` event per call, in order, then the `tool_complete`
      count. */
  function ToolEvents(calls: seq<ToolCall>, env: Env): (r: seq<StreamEvent>)
    ensures |r| == |calls| + 1
    ensures forall i :: 0 <= i < |calls| ==> r[i] == StreamEvent(ToolUse, env.encodeCall(calls[i]))
    ensures r[|calls|] == StreamEvent(ToolComplete, NatToString(|calls|) + " tool(s) executed")
  {
    seq(|calls|, i requires 0 <= i < |calls| => StreamEvent(ToolUse, env.encodeCall(calls[i])))
    + [StreamEvent(ToolComplete, NatToString(|calls|) + " tool(s) executed")]
  }

  /** The messages the next request carries after a round that merged
      `calls`: the assistant turn asking for them, then their results. */
  function AfterTools(local: seq<Message>, calls: seq<ToolCall>, env: Env): seq<Message>
  {
    local + [Message(Assistant, None, calls, None)] + ExecToolCalls(calls, env.box)
  }

  /** How one request ends once its response has been read: the turn is
      over after `events`, or `events` are yielded and the loop sends
      `next`, having run `rounds` tool rounds. */
  datatype Step = Final(events: seq<StreamEvent>) | Again(events: seq<StreamEvent>, next: seq<Message>, rounds: nat)

  /** One iteration of the `while` loop after reading the response `r`:
      a stop, a halt, a failure or a stream without tool-call fragments
      ends the turn; otherwise the loop goes on, running the merged calls
      and counting the round when there is at least one. */
  function RoundStep(local: seq<Message>, rounds: nat, r: RoundResult, env: Env): Step
  {
    match r.end
    case Stopped => Final(r.events)
    case Halted => Final(r.events)
    case Failed(m) => Final(r.events + [StreamEvent(Error, m)])
    case _ =>
      if r.fragments == [] then Final(r.events)
      else
        var calls := MergedCalls(r.fragments);
        if calls == [] then Again(r.events, local, rounds)
        else Again(r.events + ToolEvents(calls, env), AfterTools(local, calls, env), rounds + 1)
  }

  /** The turn `stream_completion` produces from the message list `local`
      after `rounds` tool rounds, when the transport answers the next
      requests with `script`. */
  function Run(local: seq<Message>, rounds: nat, maxToolRounds: int, script: seq<Response>, env: Env): Turn
    decreases |script|
  {
    if rounds >= maxToolRounds then Turn([StreamEvent(Error, RoundLimitMessage(maxToolRounds))], [], Finished)
    else if script == [] then Turn([], [], Exhausted)
    else
      match RoundStep(local, rounds, ReadStream(script[0].chunks, script[0].failure), env)
      case Final(events) => Turn(events, [local], Finished)
      case Again(events, next, rounds') => Then(events, local, Run(next, rounds', maxToolRounds, script[1..], env))
  }

  lemma RunAt(local: seq<Message>, rounds: nat, maxToolRounds: int, script: seq<Response>, next: nat, env: Env)
    requires next < |script| && rounds < maxToolRounds
    ensures
      Run(local, rounds, maxToolRounds, script[next..], env) ==
        match RoundStep(local, rounds, ReadStream(script[next].chunks, script[next].failure), env)
        case Final(events) => Turn(events, [local], Finished)
        case Again(events, n, rounds') => Then(events, local, Run(n, rounds', maxToolRounds, script[next + 1..], env))
  {
    assert script[next..][0] == script[next] && script[next..][1..] == script[next + 1..];
  }

  /** The `for tool_call in tool_calls_complete` loop: one `tool_call`
      event per merged call, in order. */
  method AnnounceToolCalls(calls: seq<ToolCall>, env: Env) returns (events: seq<StreamEvent>)
    ensures |events| == |calls|
    ensures forall i :: 0 <= i < |calls| ==> events[i] == StreamEvent(ToolUse, env.encodeCall(calls[i]))
  {
    events := [];
    for j := 0 to |calls|
      invariant |events| == j
      invariant forall i :: 0 <= i < j ==> events[i] == StreamEvent(ToolUse, env.encodeCall(calls[i]))
    {
      events := events + [StreamEvent(ToolUse, env.encodeCall(calls[j]))];
    }
  }

  /** `prefix` events and requests already produced, followed by the turn
      `t` still to come. */
  function After(events: seq<StreamEvent>, requests: seq<seq<Message>>, t: Turn): Turn
  {
    Turn(events + t.events, requests + t.requests, t.end)
  }

  lemma AfterNothing(t: Turn)
    ensures After([], [], t) == t
  {
    assert [] + t.events == t.events && [] + t.requests == t.requests;
  }

  lemma AfterThen(events: seq<StreamEvent>, requests: seq<seq<Message>>, more: seq<StreamEvent>, request: seq<Message>, t: Turn)
    ensures After(events, requests, Then(more, request, t)) == After(events + more, requests + [request], t)
  {
    assert events + (more + t.events) == (events + more) + t.events;
    assert requests + ([request] + t.requests) == (requests + [request]) + t.requests;
  }

  lemma AfterLast(events: seq<StreamEvent>, requests: seq<seq<Message>>, more: seq<StreamEvent>, request: seq<Message>)
    ensures After(events, requests, Turn(more, [request], Finished)) == Turn(events + more, requests + [request], Finished)
  {
  }

  /** The body of a round that merged `calls`: the assistant message and
      the tool results join the local list, and the events announce the
      calls and count them. */
  method ToolRound(local: seq<Message>, calls: seq<ToolCall>, env: Env) returns (next: seq<Message>, events: seq<StreamEvent>)
    ensures next == AfterTools(local, calls, env)
    ensures events == ToolEvents(calls, env)
  {
    next := local + [Message(Assistant, None, calls, None)];
    events := AnnounceToolCalls(calls, env);
    var toolMessages := ExecToolCalls(calls, env.box);
    events := events + [StreamEvent(ToolComplete, NatToString(|calls|) + " tool(s) executed")];
    next := next + toolMessages;
  }

  /** The body of the `while` loop for one request: reads the response,
      then ends the turn on a stop, a halt, a failure or no tool-call
      fragments, and otherwise runs the merged calls, if any. */
  method PlayRound(local: seq<Message>, rounds: nat, response: Response, env: Env) returns (step: Step)
    ensures step == RoundStep(local, rounds, ReadStream(response.chunks, response.failure), env)
  {
    var roundEvents, toolCalls, roundEnd := ConsumeStream(response);
    if roundEnd.Stopped? || roundEnd.Halted? {
      return Final(roundEvents);
    }
    if roundEnd.Failed? {
      return Final(roundEvents + [StreamEvent(Error, roundEnd.message)]);
    }
    if toolCalls == [] {
      return Final(roundEvents);
    }
    var complete := MergeToolCalls(toolCalls);
    if complete != [] {
      var nextLocal, toolEvents := ToolRound(local, complete, env);
      return Again(roundEvents + toolEvents, nextLocal, rounds + 1);
    }
    step := Again(roundEvents, local, rounds);
  }

  /** `stream_completion`: sends the messages, streams the answer, runs the
      tools it asks for and sends again with their results, until the
      model stops, an error ends the turn or the round limit is reached.
      It works on a copy of `messages`, which the caller keeps unchanged. */
  method StreamCompletion(messages: seq<Message>, maxToolRounds: int, script: seq<Response>, env: Env)
    returns (events: seq<StreamEvent>, requests: seq<seq<Message>>, end: TurnEnd)
    ensures Turn(events, requests, end) == Run(messages, 0, maxToolRounds, script, env)
  {
    var local := messages;
    var rounds: nat := 0;
    var next := 0;
    events := [];
    requests := [];
    assert script[next..] == script;
    AfterNothing(Run(messages, 0, maxToolRounds, script, env));
    while true
      invariant 0 <= next <= |script|
      invariant Run(messages, 0, maxToolRounds, script, env) == After(events, requests, Run(local, rounds, maxToolRounds, script[next..], env))
      decreases |script| - next
    {
      if rounds >= maxToolRounds {
        events := events + [StreamEvent(Error, RoundLimitMessage(maxToolRounds))];
        end := Finished;
        assert requests + [] == requests;
        return;
      }
      if next == |script| {
        end := Exhausted;
        assert events + [] == events && requests + [] == requests;
        return;
      }
      RunAt(local, rounds, maxToolRounds, script, next, env);
      var step := PlayRound(local, rounds, script[next], env);
      if step.Final? {
        AfterLast(events, requests, step.events, local);
        events, requests, end := events + step.events, requests + [local], Finished;
        return;
      }
      AfterThen(events, requests, step.events, local, Run(step.next, step.rounds, maxToolRounds, script[next + 1..], env));
      events, requests := events + step.events, requests + [local];
      local, rounds := step.next, step.rounds;
      next := next + 1;
    }
  }

  // ---------------------------------------------------------------------
  // Properties of one streamed response

  /** A `stop`, a `length`/`content_filter` finish or a chunk without
      choices ends the stream: nothing after it is read. */
  lemma {:induction false} ReadStreamIgnoresRest(chunks: seq<Chunk>, failure: Option<string>, more: seq<Chunk>, otherFailure: Option<string>)
    requires ReadStream(chunks, failure).end in {Stopped, Halted, EmptyChoices}
    ensures ReadStream(chunks + more, otherFailure) == ReadStream(chunks, failure)
  {
    assert chunks != [];
    assert (chunks + more)[0] == chunks[0];
    if chunks[0].choices != [] && !(chunks[0].choices[0].finishReason == "stop" || HaltReason(chunks[0].choices[0].finishReason)) {
      assert (chunks + more)[1..] == chunks[1..] + more;
      ReadStreamIgnoresRest(chunks[1..], failure, more, otherFailure);
    }
  }

  /** The events of one response are `thinking` and `content` events,
      except that a `length` or `content_filter` finish adds exactly one
      `error` event, the last, starting `Generation stopped (`; tool-call
      fragments are gathered and never emitted. */
  lemma {:induction false} StreamEventShape(chunks: seq<Chunk>, failure: Option<string>)
    ensures var r := ReadStream(chunks, failure);
      if r.end == Halted then
        r.events != [] && r.events[|r.events| - 1].kind == Error
        && "Generation stopped (" <= r.events[|r.events| - 1].data
        && PlainEvents(r.events[..|r.events| - 1])
      else
        PlainEvents(r.events)
  {
    if chunks != [] && chunks[0].choices != [] {
      var choice := chunks[0].choices[0];
      if choice.finishReason == "stop" {
      } else if HaltReason(choice.finishReason) {
        var r := ReadStream(chunks, failure);
        assert r.events[..|r.events| - 1] == [];
      } else {
        StreamEventShape(chunks[1..], failure);
        var rest := ReadStream(chunks[1..], failure);
        var d := DeltaEvents(choice.delta);
        assert PlainEvents(d);
        assert ReadStream(chunks, failure) == Prefixed(d, choice.delta.toolCalls, rest);
        if rest.end == Halted {
          var front := rest.events[..|rest.events| - 1];
          assert (d + rest.events)[..|d + rest.events| - 1] == d + front;
          PlainEventsConcat(d, front);
        } else {
          PlainEventsConcat(d, rest.events);
        }
      }
    }
  }

  /** Reasoning and content events only. */
  predicate PlainEvents(events: seq<StreamEvent>)
  {
    forall i :: 0 <= i < |events| ==> events[i].kind in {Thinking, Content}
  }

  lemma PlainEventsConcat(a: seq<StreamEvent>, b: seq<StreamEvent>)
    requires PlainEvents(a) && PlainEvents(b)
    ensures PlainEvents(a + b)
  {
  }

  /** In one chunk the `thinking` event comes before the `content` event,
      and each appears exactly when its text is non-empty. */
  lemma ThinkingBeforeContent(d: Delta)
    ensures StreamEvent(Thinking, d.reasoningContent) in DeltaEvents(d) <==> d.reasoningContent != ""
    ensures StreamEvent(Content, d.content) in DeltaEvents(d) <==> d.content != ""
    ensures d.reasoningContent != "" && d.content != "" ==>
      DeltaEvents(d) == [StreamEvent(Thinking, d.reasoningContent), StreamEvent(Content, d.content)]
    ensures |DeltaEvents(d)| <= 2
  {
  }

  /** The error event spells out the finish reason, then the refusal when
      there is one, else the content-filter results when present. */
  lemma StopMessageDetail(choice: Choice)
    ensures var head := "Generation stopped (" + choice.finishReason + ")";
      && (choice.delta.refusal != "" ==> StopMessage(choice) == head + ": " + choice.delta.refusal)
      && (choice.delta.refusal == "" && choice.contentFilterResults != "" ==>
            StopMessage(choice) == head + ": " + choice.contentFilterResults)
      && (choice.delta.refusal == "" && choice.contentFilterResults == "" ==> StopMessage(choice) == head)
  {
  }

  // ---------------------------------------------------------------------
  // Properties of the round loop

  /** Every request the loop sends starts with the messages it was given:
      it only ever appends to its copy. */
  lemma RequestsExtendMessages(local: seq<Message>, rounds: nat, maxToolRounds: int, script: seq<Response>, env: Env)
    ensures forall i :: 0 <= i < |Run(local, rounds, maxToolRounds, script, env).requests| ==>
      local <= Run(local, rounds, maxToolRounds, script, env).requests[i]
  {
    forall i | 0 <= i < |Run(local, rounds, maxToolRounds, script, env).requests|
      ensures local <= Run(local, rounds, maxToolRounds, script, env).requests[i]
    {
      RequestExtendsMessages(local, rounds, maxToolRounds, script, env, i);
    }
  }

  /** Request `i` starts with the messages the loop was given. */
  lemma {:induction false} RequestExtendsMessages(local: seq<Message>, rounds: nat, maxToolRounds: int, script: seq<Response>, env: Env, i: nat)
    requires i < |Run(local, rounds, maxToolRounds, script, env).requests|
    ensures local <= Run(local, rounds, maxToolRounds, script, env).requests[i]
    decreases |script|
  {
    var t := Run(local, rounds, maxToolRounds, script, env);
    var step := RoundStep(local, rounds, ReadStream(script[0].chunks, script[0].failure), env);
    if step.Again? && i > 0 {
      var rest := Run(step.next, step.rounds, maxToolRounds, script[1..], env);
      assert t == Then(step.events, local, rest);
      RequestExtendsMessages(step.next, step.rounds, maxToolRounds, script[1..], env, i - 1);
      RoundStepExtends(local, rounds, ReadStream(script[0].chunks, script[0].failure), env);
      PrefixTransitive(local, step.next, rest.requests[i - 1]);
    }
  }

  /** A round that goes on sends its own messages plus, at most, the
      assistant message and the tool results. */
  lemma RoundStepExtends(local: seq<Message>, rounds: nat, r: RoundResult, env: Env)
    ensures RoundStep(local, rounds, r, env).Again? ==> local <= RoundStep(local, rounds, r, env).next
  {
  }

  lemma PrefixTransitive<T>(a: seq<T>, b: seq<T>, c: seq<T>)
    requires a <= b && b <= c
    ensures a <= c
  {
  }

  /** The number of `tool_complete` events, one per executed round. */
  function ToolRounds(events: seq<StreamEvent>): nat
  {
    if events == [] then 0
    else ToolRounds(events[..|events| - 1]) + (if events[|events| - 1].kind == ToolComplete then 1 else 0)
  }

  lemma {:induction false} ToolRoundsAppend(a: seq<StreamEvent>, b: seq<StreamEvent>)
    ensures ToolRounds(a + b) == ToolRounds(a) + ToolRounds(b)
    decreases |b|
  {
    if b == [] {
      assert a + b == a;
    } else {
      assert (a + b)[..|a + b| - 1] == a + b[..|b| - 1];
      ToolRoundsAppend(a, b[..|b| - 1]);
    }
  }

  lemma {:induction false} ToolRoundsOfStream(chunks: seq<Chunk>, failure: Option<string>)
    ensures ToolRounds(ReadStream(chunks, failure).events) == 0
  {
    var events := ReadStream(chunks, failure).events;
    StreamEventShape(chunks, failure);
    forall i | 0 <= i < |events| ensures events[i].kind != ToolComplete {
      if ReadStream(chunks, failure).end == Halted && i < |events| - 1 {
        assert events[..|events| - 1][i] == events[i];
      }
    }
    ToolRoundsNone(events);
  }

  lemma {:induction false} ToolRoundsNone(events: seq<StreamEvent>)
    requires forall i :: 0 <= i < |events| ==> events[i].kind != ToolComplete
    ensures ToolRounds(events) == 0
    decreases |events|
  {
    if events != [] {
      ToolRoundsNone(events[..|events| - 1]);
    }
  }

  lemma ToolRoundsOfToolEvents(calls: seq<ToolCall>, env: Env)
    ensures ToolRounds(ToolEvents(calls, env)) == 1
  {
    var e := ToolEvents(calls, env);
    assert e[..|e| - 1] == e[..|calls|];
    ToolRoundsNone(e[..|calls|]);
  }

  /** The loop runs tools in at most `max_tool_rounds - rounds` rounds: each
      executed round counts once against the limit. */
  lemma {:induction false} ToolRoundsBounded(local: seq<Message>, rounds: nat, maxToolRounds: int, script: seq<Response>, env: Env)
    ensures ToolRounds(Run(local, rounds, maxToolRounds, script, env).events) <= if rounds < maxToolRounds then maxToolRounds - rounds else 0
    decreases |script|
  {
    var t := Run(local, rounds, maxToolRounds, script, env);
    if rounds >= maxToolRounds {
      assert t.events[..0] == [];
    } else if script != [] {
      var step := RoundStep(local, rounds, ReadStream(script[0].chunks, script[0].failure), env);
      RoundStepCounts(local, rounds, script[0].chunks, script[0].failure, env);
      if step.Again? {
        ToolRoundsBounded(step.next, step.rounds, maxToolRounds, script[1..], env);
        ToolRoundsAppend(step.events, Run(step.next, step.rounds, maxToolRounds, script[1..], env).events);
      }
    }
  }

  /** A round's events count one `tool_complete` exactly when it ran
      tools, and only then does the round counter move, by one. */
  lemma RoundStepCounts(local: seq<Message>, rounds: nat, chunks: seq<Chunk>, failure: Option<string>, env: Env)
    ensures var step := RoundStep(local, rounds, ReadStream(chunks, failure), env);
      && (step.Final? ==> ToolRounds(step.events) == 0)
      && (step.Again? ==> rounds <= step.rounds <= rounds + 1 && ToolRounds(step.events) == step.rounds - rounds)
  {
    var r := ReadStream(chunks, failure);
    ToolRoundsOfStream(chunks, failure);
    if r.end.Failed? {
      ToolRoundsAppend(r.events, [StreamEvent(Error, r.end.message)]);
      assert [StreamEvent(Error, r.end.message)][..0] == [];
    } else if !(r.end.Stopped? || r.end.Halted?) && r.fragments != [] {
      var calls := MergedCalls(r.fragments);
      if calls != [] {
        ToolRoundsOfToolEvents(calls, env);
        ToolRoundsAppend(r.events, ToolEvents(calls, env));
      }
    }
  }

  /** A response whose stream ends normally with tool-call fragments none
      of which carries an id. */
  predicate IdlessRound(response: Response)
  {
    var r := ReadStream(response.chunks, response.failure);
    r.end in {EmptyChoices, EndOfStream} && r.fragments != []
    && forall i :: 0 <= i < |r.fragments| ==> r.fragments[i].id == ""
  }

  /** Rounds whose fragments never carry an id re-send the same messages
      without counting a round, so below the limit only the end of the
      responses stops the loop. */
  lemma {:induction false} IdlessRoundsResend(local: seq<Message>, rounds: nat, maxToolRounds: int, script: seq<Response>, env: Env)
    requires rounds < maxToolRounds
    requires forall i :: 0 <= i < |script| ==> IdlessRound(script[i])
    ensures Run(local, rounds, maxToolRounds, script, env).end == Exhausted
    ensures Run(local, rounds, maxToolRounds, script, env).requests == seq(|script|, _ => local)
    decreases |script|
  {
    if script != [] {
      IdlessRoundStep(local, rounds, maxToolRounds, script, env);
      var rest := Run(local, rounds, maxToolRounds, script[1..], env);
      forall i | 0 <= i < |script[1..]| ensures IdlessRound(script[1..][i]) {
        assert script[1..][i] == script[i + 1];
      }
      IdlessRoundsResend(local, rounds, maxToolRounds, script[1..], env);
      assert Run(local, rounds, maxToolRounds, script, env).requests == [local] + rest.requests;
      assert seq(|script|, _ => local) == [local] + seq(|script| - 1, _ => local);
    }
  }

  /** One id-less round: its events, then the same request again. */
  lemma IdlessRoundStep(local: seq<Message>, rounds: nat, maxToolRounds: int, script: seq<Response>, env: Env)
    requires rounds < maxToolRounds && script != [] && IdlessRound(script[0])
    ensures Run(local, rounds, maxToolRounds, script, env)
      == Then(ReadStream(script[0].chunks, script[0].failure).events, local, Run(local, rounds, maxToolRounds, script[1..], env))
  {
    NoIdNoCall(ReadStream(script[0].chunks, script[0].failure).fragments);
  }

  /** A response that stops, halts or fails ends the turn after its one
      request: no tool runs and no further request is sent. A `stop` adds
      no event of its own; a failure adds exactly one `error` event, the
      last, carrying the exception's message. */
  lemma FinalRound(local: seq<Message>, rounds: nat, maxToolRounds: int, script: seq<Response>, env: Env)
    requires rounds < maxToolRounds && script != []
    requires ReadStream(script[0].chunks, script[0].failure).end in {Stopped, Halted}
      || ReadStream(script[0].chunks, script[0].failure).end.Failed?
    ensures var r := ReadStream(script[0].chunks, script[0].failure);
      var t := Run(local, rounds, maxToolRounds, script, env);
      && t.end == Finished && t.requests == [local]
      && (forall i :: 0 <= i < |t.events| ==> t.events[i].kind !in {ToolUse, ToolComplete})
      && (r.end != Halted ==> forall i :: 0 <= i < |r.events| ==> r.events[i].kind in {Thinking, Content})
      && (r.end.Failed? ==> t.events == r.events + [StreamEvent(Error, r.end.message)])
      && (!r.end.Failed? ==> t.events == r.events)
  {
    var r := ReadStream(script[0].chunks, script[0].failure);
    StreamEventShape(script[0].chunks, script[0].failure);
    var t := Run(local, rounds, maxToolRounds, script, env);
    var tail: seq<StreamEvent> := if r.end.Failed? then [StreamEvent(Error, r.end.message)] else [];
    assert t == Turn(r.events + tail, [local], Finished);
    forall i | 0 <= i < |t.events| ensures t.events[i].kind !in {ToolUse, ToolComplete} {
      if r.end == Halted && i < |r.events| - 1 {
        assert r.events[..|r.events| - 1][i] == r.events[i];
      }
    }
  }

  /** A response whose stream ends normally with at least one complete
      tool call. */
  predicate ToolCallRound(response: Response)
  {
    var r := ReadStream(response.chunks, response.failure);
    r.end in {EmptyChoices, EndOfStream} && MergedCalls(r.fragments) != []
  }

  /** A model that asks for tools in every answer is cut off after exactly
      `max_tool_rounds - rounds` requests, with the round-limit error as the
      last event. */
  lemma {:induction false} RoundLimitReached(local: seq<Message>, rounds: nat, maxToolRounds: int, script: seq<Response>, env: Env)
    requires rounds <= maxToolRounds <= rounds + |script|
    requires forall i :: 0 <= i < |script| ==> ToolCallRound(script[i])
    ensures var t := Run(local, rounds, maxToolRounds, script, env);
      t.end == Finished && |t.requests| == maxToolRounds - rounds
      && t.events != [] && t.events[|t.events| - 1] == StreamEvent(Error, RoundLimitMessage(maxToolRounds))
    decreases |script|
  {
    if rounds < maxToolRounds {
      var r := ReadStream(script[0].chunks, script[0].failure);
      var calls := MergedCalls(r.fragments);
      var after := AfterTools(local, calls, env);
      ToolCallRoundStep(local, rounds, maxToolRounds, script, env);
      RoundLimitReached(after, rounds + 1, maxToolRounds, script[1..], env);
      var rest := Run(after, rounds + 1, maxToolRounds, script[1..], env);
      var front := r.events + ToolEvents(calls, env);
      assert (front + rest.events)[|front + rest.events| - 1] == rest.events[|rest.events| - 1];
    }
  }

  /** One round of a response that asks for tools: its events and the
      tool events, its request, then the loop on the extended messages. */
  lemma ToolCallRoundStep(local: seq<Message>, rounds: nat, maxToolRounds: int, script: seq<Response>, env: Env)
    requires rounds < maxToolRounds && script != [] && ToolCallRound(script[0])
    ensures var r := ReadStream(script[0].chunks, script[0].failure);
      var calls := MergedCalls(r.fragments);
      Run(local, rounds, maxToolRounds, script, env)
        == Then(r.events + ToolEvents(calls, env), local, Run(AfterTools(local, calls, env), rounds + 1, maxToolRounds, script[1..], env))
  {
    var r := ReadStream(script[0].chunks, script[0].failure);
    assert r.fragments != [] by {
      if r.fragments == [] {
        NoIdNoCall(r.fragments);
      }
    }
  }
}
