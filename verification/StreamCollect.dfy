/** Answers as streams (metaharness/model/stream.go): reading a streamed answer to its end as one
    message, and sending a whole answer as a stream. */
module StreamCollect {
  import opened Numerals
  import opened Wrappers

  /** Provider options; empty and absent are the same. */
  type Options = map<string, string>

  datatype Part = Reasoning(text: string, options: Options) | Text(text: string)
                | Call(id: string, name: string, input: string) | Other

  datatype Reason = Stop | Length | ToolUse

  datatype StreamPart =
    | ReasoningStart(id: string, meta: Options)
    | ReasoningDelta(id: string, delta: string, meta: Options)
    | ReasoningEnd(id: string, delta: string, meta: Options)
    | TextDelta(delta: string)
    | ToolCall(id: string, name: string, input: string, providerExecuted: bool)
    | Finish(usage: nat, reason: Reason)
    | Error(message: string)
    | Ignored

  datatype Fault = OutputLimit | Failed(message: string)

  // ---------------------------------------------------------------- what a stream says

  /** The text of a stream: all its text deltas. */
  function TextOf(parts: seq<StreamPart>): string {
    if parts == [] then ""
    else if parts[|parts| - 1].TextDelta? then TextOf(parts[..|parts| - 1]) + parts[|parts| - 1].delta
    else TextOf(parts[..|parts| - 1])
  }

  /** Its tool calls, but those the provider executed itself. */
  function CallsOf(parts: seq<StreamPart>): seq<Part> {
    if parts == [] then []
    else
      var p := parts[|parts| - 1];
      var before := CallsOf(parts[..|parts| - 1]);
      if p.ToolCall? && !p.providerExecuted then before + [Call(p.id, p.name, p.input)] else before
  }

  /** Where its reasoning blocks start, in order. */
  function Starts(parts: seq<StreamPart>): (starts: seq<nat>)
    ensures forall k :: 0 <= k < |starts| ==> starts[k] < |parts| && parts[starts[k]].ReasoningStart?
    ensures forall k, l :: 0 <= k < l < |starts| ==> starts[k] < starts[l]
    ensures forall i :: 0 <= i < |parts| && parts[i].ReasoningStart? ==> i in starts
  {
    if parts == [] then []
    else Starts(parts[..|parts| - 1]) + if parts[|parts| - 1].ReasoningStart? then [|parts| - 1] else []
  }

  predicate Continues(p: StreamPart, id: string) {
    (p.ReasoningDelta? || p.ReasoningEnd?) && p.id == id
  }

  /** No block with this ID starts after i. */
  predicate Latest(parts: seq<StreamPart>, i: nat, id: string) {
    forall j :: i < j < |parts| ==> !(parts[j].ReasoningStart? && parts[j].id == id)
  }

  /** The block that starts at i: the deltas under its ID, until another block takes the ID over, and
      the last options that came with it. */
  ghost function Block(parts: seq<StreamPart>, i: nat): (r: Part)
    requires i < |parts| && parts[i].ReasoningStart?
    ensures r.Reasoning?
    decreases |parts|
  {
    if i == |parts| - 1 then Reasoning("", parts[i].meta)
    else
      var before := Block(parts[..|parts| - 1], i);
      var p := parts[|parts| - 1];
      if Continues(p, parts[i].id) && Latest(parts, i, parts[i].id)
      then Reasoning(before.text + p.delta, if p.meta != map[] then p.meta else before.options)
      else before
  }

  ghost function BlocksOf(parts: seq<StreamPart>): (r: seq<Part>)
    ensures |r| == |Starts(parts)|
    ensures forall k :: 0 <= k < |r| ==> r[k] == Block(parts, Starts(parts)[k])
  {
    seq(|Starts(parts)|, k requires 0 <= k < |Starts(parts)| => Block(parts, Starts(parts)[k]))
  }

  function LastFinish(parts: seq<StreamPart>): Option<StreamPart> {
    if parts == [] then None
    else if parts[|parts| - 1].Finish? then Some(parts[|parts| - 1])
    else LastFinish(parts[..|parts| - 1])
  }

  // ---------------------------------------------------------------- part by part

  lemma WithoutLast(before: seq<StreamPart>, p: StreamPart, after: seq<StreamPart>)
    ensures var all := before + [p] + after;
            && all[|all| - 1] == (if after == [] then p else after[|after| - 1])
            && all[..|all| - 1] == if after == [] then before else before + [p] + after[..|after| - 1]
  {
  }

  lemma {:induction false} EachText(before: seq<StreamPart>, p: StreamPart, after: seq<StreamPart>)
    ensures TextOf(before + [p] + after) == TextOf(before) + (if p.TextDelta? then p.delta else "") + TextOf(after)
  {
    WithoutLast(before, p, after);
    if after != [] {
      EachText(before, p, after[..|after| - 1]);
    }
  }

  lemma {:induction false} EachCall(before: seq<StreamPart>, p: StreamPart, after: seq<StreamPart>)
    ensures CallsOf(before + [p] + after)
            == CallsOf(before) + (if p.ToolCall? && !p.providerExecuted then [Call(p.id, p.name, p.input)] else []) + CallsOf(after)
  {
    WithoutLast(before, p, after);
    if after != [] {
      EachCall(before, p, after[..|after| - 1]);
    }
  }

  /** Text is the text deltas and nothing else, wherever they stand; calls are the tool calls but those
      the provider executed itself, each under its own ID, name and input. */
  lemma EachSays(before: seq<StreamPart>, p: StreamPart, after: seq<StreamPart>)
    ensures TextOf(before + [p] + after) == TextOf(before) + (if p.TextDelta? then p.delta else "") + TextOf(after)
    ensures CallsOf(before + [p] + after)
            == CallsOf(before) + (if p.ToolCall? && !p.providerExecuted then [Call(p.id, p.name, p.input)] else []) + CallsOf(after)
  {
    EachText(before, p, after);
    EachCall(before, p, after);
  }

  lemma {:induction false} TextEmpty(parts: seq<StreamPart>)
    ensures TextOf(parts) == "" <==> forall i :: 0 <= i < |parts| && parts[i].TextDelta? ==> parts[i].delta == ""
  {
    if parts != [] {
      var init, last := parts[..|parts| - 1], parts[|parts| - 1];
      TextEmpty(init);
      assert forall i :: 0 <= i < |init| ==> parts[i] == init[i];
      if TextOf(parts) == "" && last.TextDelta? {
        assert |TextOf(parts)| == |TextOf(init)| + |last.delta|;
      }
    }
  }

  lemma {:induction false} CallsEmpty(parts: seq<StreamPart>)
    ensures CallsOf(parts) == [] <==> forall i :: 0 <= i < |parts| && parts[i].ToolCall? ==> parts[i].providerExecuted
  {
    if parts != [] {
      var init := parts[..|parts| - 1];
      CallsEmpty(init);
      assert forall i :: 0 <= i < |init| ==> parts[i] == init[i];
    }
  }

  /** The part at i is the last that says how the stream finished. */
  predicate FinishAt(parts: seq<StreamPart>, i: nat) {
    i < |parts| && parts[i].Finish? && forall j :: i < j < |parts| ==> !parts[j].Finish?
  }

  lemma {:induction false} LastFinishIs(parts: seq<StreamPart>)
    ensures LastFinish(parts).None? <==> forall i :: 0 <= i < |parts| ==> !parts[i].Finish?
    ensures forall i: nat :: FinishAt(parts, i) ==> LastFinish(parts) == Some(parts[i])
    ensures LastFinish(parts).Some? ==> exists i: nat :: FinishAt(parts, i)
  {
    if parts != [] {
      var init := parts[..|parts| - 1];
      LastFinishIs(init);
      if parts[|parts| - 1].Finish? {
        assert FinishAt(parts, |parts| - 1);
      } else {
        assert forall i: nat :: FinishAt(parts, i) <==> FinishAt(init, i);
      }
    }
  }

  /** The output limit was hit exactly if the stream finished for its length, and before that no
      text came and no call that is not the provider's own. */
  lemma RanOutIff(parts: seq<StreamPart>)
    ensures RanOut(parts) <==>
              && (exists i: nat :: FinishAt(parts, i) && parts[i].reason == Length)
              && (forall i :: 0 <= i < |parts| && parts[i].TextDelta? ==> parts[i].delta == "")
              && (forall i :: 0 <= i < |parts| && parts[i].ToolCall? ==> parts[i].providerExecuted)
  {
    TextEmpty(parts);
    CallsEmpty(parts);
    LastFinishIs(parts);
    if LastFinish(parts).Some? {
      var i: nat :| FinishAt(parts, i);
    }
  }

  function UsageOf(parts: seq<StreamPart>): nat {
    match LastFinish(parts)
    case Some(Finish(usage, _)) => usage
    case _ => 0
  }

  /** The stream ran out of output tokens before it said or asked anything. */
  predicate RanOut(parts: seq<StreamPart>) {
    && LastFinish(parts).Some? && LastFinish(parts).value.Finish? && LastFinish(parts).value.reason == Length
    && TextOf(parts) == "" && CallsOf(parts) == []
  }

  function TextPart(text: string): seq<Part> {
    if text == "" then [] else [Text(text)]
  }

  /** What reading a stream comes to: the content of the assistant's message. */
  ghost function Collected(parts: seq<StreamPart>): Result<seq<Part>, Fault> {
    if RanOut(parts) then Err(OutputLimit)
    else Ok(BlocksOf(parts) + TextPart(TextOf(parts)) + CallsOf(parts))
  }

  // ---------------------------------------------------------------- reading one

  /** Block k is the latest with this ID. */
  predicate LeadsTo(parts: seq<StreamPart>, id: string, k: nat) {
    k < |Starts(parts)| && parts[Starts(parts)[k]].id == id && Latest(parts, Starts(parts)[k], id)
  }

  /** The map from IDs to blocks knows each ID's latest block. */
  ghost predicate Thinking(parts: seq<StreamPart>, thinking: map<string, nat>) {
    && (forall id :: id in thinking ==> LeadsTo(parts, id, thinking[id]))
    && (forall i :: 0 <= i < |parts| && parts[i].ReasoningStart? ==> parts[i].id in thinking)
  }

  lemma BlockNext(parts: seq<StreamPart>, p: StreamPart, i: nat)
    requires i < |parts| && parts[i].ReasoningStart?
    ensures Block(parts + [p], i) == if Continues(p, parts[i].id) && Latest(parts, i, parts[i].id)
                                     then Reasoning(Block(parts, i).text + p.delta,
                                                    if p.meta != map[] then p.meta else Block(parts, i).options)
                                     else Block(parts, i)
  {
    assert (parts + [p])[..|parts|] == parts;
    assert Continues(p, parts[i].id) ==> (Latest(parts + [p], i, parts[i].id) <==> Latest(parts, i, parts[i].id));
  }

  /** A new block. */
  lemma StartNext(parts: seq<StreamPart>, p: StreamPart)
    requires p.ReasoningStart?
    ensures BlocksOf(parts + [p]) == BlocksOf(parts) + [Reasoning("", p.meta)]
  {
    assert (parts + [p])[..|parts|] == parts;
    var starts := Starts(parts);
    assert Starts(parts + [p]) == starts + [|parts|];
    forall k | 0 <= k < |starts|
      ensures Block(parts + [p], starts[k]) == Block(parts, starts[k])
    {
      BlockNext(parts, p, starts[k]);
    }
  }

  lemma ThinkingStart(parts: seq<StreamPart>, p: StreamPart, thinking: map<string, nat>)
    requires p.ReasoningStart? && Thinking(parts, thinking)
    ensures Thinking(parts + [p], thinking[p.id := |Starts(parts)|])
  {
    var next, ids := parts + [p], thinking[p.id := |Starts(parts)|];
    assert next[..|parts|] == parts;
    assert Starts(next) == Starts(parts) + [|parts|];
    forall id | id in ids
      ensures LeadsTo(next, id, ids[id])
    {
      if id != p.id {
        assert LeadsTo(parts, id, thinking[id]);
      }
    }
  }

  lemma ThinkingContinues(parts: seq<StreamPart>, p: StreamPart, thinking: map<string, nat>)
    requires !p.ReasoningStart? && Thinking(parts, thinking)
    ensures Thinking(parts + [p], thinking) && Starts(parts + [p]) == Starts(parts)
  {
    assert (parts + [p])[..|parts|] == parts;
    forall id | id in thinking
      ensures LeadsTo(parts + [p], id, thinking[id])
    {
      assert LeadsTo(parts, id, thinking[id]);
    }
  }

  /** A block is the latest of its ID exactly when the map leads to it. */
  lemma LatestIs(parts: seq<StreamPart>, thinking: map<string, nat>, k: nat)
    requires Thinking(parts, thinking) && k < |Starts(parts)|
    ensures var i := Starts(parts)[k];
            parts[i].id in thinking && (Latest(parts, i, parts[i].id) <==> thinking[parts[i].id] == k)
  {
    var i := Starts(parts)[k];
    var last := thinking[parts[i].id];
    assert LeadsTo(parts, parts[i].id, last);
    if k < last {
      assert parts[Starts(parts)[last]].ReasoningStart? && parts[Starts(parts)[last]].id == parts[i].id;
    }
  }

  /** What continues no block leaves them as they were. */
  lemma OthersNext(parts: seq<StreamPart>, p: StreamPart, thinking: map<string, nat>)
    requires !p.ReasoningStart? && Thinking(parts, thinking)
    requires !(p.ReasoningDelta? || p.ReasoningEnd?) || p.id !in thinking
    ensures BlocksOf(parts + [p]) == BlocksOf(parts)
  {
    ThinkingContinues(parts, p, thinking);
    forall k | 0 <= k < |Starts(parts)|
      ensures Block(parts + [p], Starts(parts)[k]) == Block(parts, Starts(parts)[k])
    {
      BlockNext(parts, p, Starts(parts)[k]);
    }
  }

  function Extended(reasoning: seq<Part>, k: nat, delta: string, meta: Options): seq<Part>
    requires k < |reasoning| && reasoning[k].Reasoning?
  {
    reasoning[k := Reasoning(reasoning[k].text + delta, if meta != map[] then meta else reasoning[k].options)]
  }

  lemma ContinueAt(parts: seq<StreamPart>, p: StreamPart, thinking: map<string, nat>, k: nat)
    requires (p.ReasoningDelta? || p.ReasoningEnd?) && Thinking(parts, thinking) && p.id in thinking && k < |Starts(parts)|
    ensures Block(parts + [p], Starts(parts)[k])
            == if k == thinking[p.id] then Extended(BlocksOf(parts), k, p.delta, p.meta)[k] else Block(parts, Starts(parts)[k])
  {
    BlockNext(parts, p, Starts(parts)[k]);
    LatestIs(parts, thinking, k);
    assert LeadsTo(parts, p.id, thinking[p.id]);
  }

  /** What continues an ID goes to its latest block, and to no other. */
  lemma ContinueNext(parts: seq<StreamPart>, p: StreamPart, thinking: map<string, nat>)
    requires (p.ReasoningDelta? || p.ReasoningEnd?) && Thinking(parts, thinking) && p.id in thinking
    ensures thinking[p.id] < |BlocksOf(parts)|
    ensures BlocksOf(parts + [p]) == Extended(BlocksOf(parts), thinking[p.id], p.delta, p.meta)
    ensures var before, after := BlocksOf(parts)[thinking[p.id]], BlocksOf(parts + [p])[thinking[p.id]];
            after.text == before.text + p.delta && after.options == if p.meta == map[] then before.options else p.meta
  {
    assert LeadsTo(parts, p.id, thinking[p.id]);
    ThinkingContinues(parts, p, thinking);
    var next, starts := parts + [p], Starts(parts);
    var before, after := BlocksOf(parts), BlocksOf(next);
    forall k | 0 <= k < |starts|
      ensures after[k] == if k == thinking[p.id] then Extended(before, k, p.delta, p.meta)[k] else before[k]
    {
      ContinueAt(parts, p, thinking, k);
    }
    assert |after| == |before| == |starts|;
  }

  /** What one stream part does to the reasoning blocks. */
  method Think(reasoning: seq<Part>, thinking: map<string, nat>, p: StreamPart, ghost parts: seq<StreamPart>)
    returns (blocks: seq<Part>, ids: map<string, nat>)
    requires reasoning == BlocksOf(parts) && Thinking(parts, thinking)
    ensures blocks == BlocksOf(parts + [p]) && Thinking(parts + [p], ids)
  {
    blocks, ids := reasoning, thinking;
    if p.ReasoningStart? {
      StartNext(parts, p);
      ThinkingStart(parts, p, thinking);
      ids := thinking[p.id := |reasoning|];
      blocks := reasoning + [Reasoning("", p.meta)];
    } else {
      ThinkingContinues(parts, p, thinking);
      if (p.ReasoningDelta? || p.ReasoningEnd?) && p.id in thinking {
        ContinueNext(parts, p, thinking);
        blocks := Extended(reasoning, thinking[p.id], p.delta, p.meta);
      } else {
        OthersNext(parts, p, thinking);
      }
    }
  }

  /** Reads a stream to its end, or to its first error. */
  method Collect(parts: seq<StreamPart>) returns (r: Result<seq<Part>, Fault>, usage: nat)
    ensures NoError(parts, |parts|) ==> r == Collected(parts) && usage == UsageOf(parts)
    ensures NoError(parts, |parts|) ==> (r == Err(OutputLimit) <==>
              && (exists i: nat :: FinishAt(parts, i) && parts[i].reason == Length)
              && (forall i :: 0 <= i < |parts| && parts[i].TextDelta? ==> parts[i].delta == "")
              && (forall i :: 0 <= i < |parts| && parts[i].ToolCall? ==> parts[i].providerExecuted))
    ensures NoError(parts, |parts|) ==> forall i: nat :: FinishAt(parts, i) ==> usage == parts[i].usage
    ensures forall i :: 0 <= i < |parts| && parts[i].Error? && NoError(parts, i) ==>
              r == Err(Failed(parts[i].message)) && usage == UsageOf(parts[..i])
  {
    var reasoning: seq<Part> := [];
    var thinking: map<string, nat> := map[];
    var text := "";
    var calls: seq<Part> := [];
    var finish: Option<StreamPart> := None;
    usage := 0;
    for n := 0 to |parts|
      invariant NoError(parts, n)
      invariant reasoning == BlocksOf(parts[..n]) && Thinking(parts[..n], thinking)
      invariant text == TextOf(parts[..n]) && calls == CallsOf(parts[..n]) && finish == LastFinish(parts[..n])
      invariant usage == UsageOf(parts[..n])
    {
      var p := parts[n];
      assert parts[..n + 1] == parts[..n] + [p] && parts[..n + 1][..n] == parts[..n];
      if p.Error? {
        return Err(Failed(p.message)), usage;
      }
      reasoning, thinking := Think(reasoning, thinking, p, parts[..n]);
      if p.TextDelta? {
        text := text + p.delta;
      } else if p.ToolCall? && !p.providerExecuted {
        calls := calls + [Call(p.id, p.name, p.input)];
      } else if p.Finish? {
        finish, usage := Some(p), p.usage;
      }
    }
    assert parts[..|parts|] == parts;
    RanOutIff(parts);
    LastFinishIs(parts);
    if finish.Some? && finish.value.Finish? && finish.value.reason == Length && text == "" && calls == [] {
      return Err(OutputLimit), usage;
    }
    return Ok(reasoning + TextPart(text) + calls), usage;
  }

  predicate NoError(parts: seq<StreamPart>, n: nat)
    requires n <= |parts|
  {
    forall i :: 0 <= i < n ==> !parts[i].Error?
  }

  // ---------------------------------------------------------------- blocks that interleave

  /** All text that comes under an ID. */
  function DeltasOf(parts: seq<StreamPart>, id: string): string {
    if parts == [] then ""
    else
      var p := parts[|parts| - 1];
      var before := DeltasOf(parts[..|parts| - 1], id);
      if Continues(p, id) then before + p.delta else before
  }

  /** All text under an ID is that of its deltas and of its end, wherever they stand. */
  lemma {:induction false} EachDelta(before: seq<StreamPart>, p: StreamPart, after: seq<StreamPart>, id: string)
    ensures DeltasOf(before + [p] + after, id)
            == DeltasOf(before, id) + (if (p.ReasoningDelta? || p.ReasoningEnd?) && p.id == id then p.delta else "") + DeltasOf(after, id)
  {
    WithoutLast(before, p, after);
    if after != [] {
      EachDelta(before, p, after[..|after| - 1], id);
    }
  }

  lemma {:induction false} NoDeltas(parts: seq<StreamPart>, id: string)
    requires forall j :: 0 <= j < |parts| ==> !Continues(parts[j], id)
    ensures DeltasOf(parts, id) == ""
  {
    if parts != [] {
      NoDeltas(parts[..|parts| - 1], id);
    }
  }

  /** However blocks interleave, one that shares its ID with no other gets all the text that comes
      under its ID, and only that. */
  lemma {:induction false} OwnDeltas(parts: seq<StreamPart>, i: nat)
    requires i < |parts| && parts[i].ReasoningStart?
    requires forall j :: 0 <= j < |parts| && j != i ==> !(parts[j].ReasoningStart? && parts[j].id == parts[i].id)
    requires forall j :: 0 <= j < i ==> !Continues(parts[j], parts[i].id)
    ensures Block(parts, i).text == DeltasOf(parts, parts[i].id)
    decreases |parts|
  {
    var init := parts[..|parts| - 1];
    if i == |init| {
      NoDeltas(init, parts[i].id);
    } else {
      OwnDeltas(init, i);
    }
  }

  /** The last part that had options for a block. */
  predicate OptionsAt(parts: seq<StreamPart>, i: nat, last: nat)
    requires i < |parts| && parts[i].ReasoningStart?
  {
    && i <= last < |parts| && (i < last ==> Continues(parts[last], parts[i].id) && parts[last].meta != map[])
    && forall j :: last < j < |parts| && Continues(parts[j], parts[i].id) ==> parts[j].meta == map[]
  }

  /** And its options are those of the last part under its ID that had any, else those it began with. */
  lemma {:induction false} OwnOptions(parts: seq<StreamPart>, i: nat, last: nat)
    requires i < |parts| && parts[i].ReasoningStart? && OptionsAt(parts, i, last)
    requires forall j :: i < j < |parts| ==> !(parts[j].ReasoningStart? && parts[j].id == parts[i].id)
    ensures Block(parts, i).options == if last == i then parts[i].meta else parts[last].meta
    decreases |parts|
  {
    var init := parts[..|parts| - 1];
    if last < |init| {
      OwnOptions(init, i, last);
    }
  }

  // ---------------------------------------------------------------- sending a whole answer

  /** One part of a message as stream parts; a reasoning block takes its position as its ID. */
  function Chunk(part: Part, position: nat): seq<StreamPart> {
    match part
    case Reasoning(text, options) =>
      var id := Decimal(position);
      [ReasoningStart(id, map[]), ReasoningDelta(id, text, map[]), ReasoningEnd(id, "", options)]
    case Text(text) => [TextDelta(text)]
    case Call(id, name, input) => [ToolCall(id, name, input, false)]
    case Other => []
  }

  function Chunks(content: seq<Part>): seq<StreamPart> {
    if content == [] then [] else Chunks(content[..|content| - 1]) + Chunk(content[|content| - 1], |content| - 1)
  }

  function Streamed(content: seq<Part>, usage: nat): seq<StreamPart> {
    Chunks(content) + [Finish(usage, Stop)]
  }

  // ---------------------------------------------------------------- the normal form

  function Reasonings(content: seq<Part>): seq<Part> {
    if content == [] then []
    else if content[|content| - 1].Reasoning? then Reasonings(content[..|content| - 1]) + [content[|content| - 1]]
    else Reasonings(content[..|content| - 1])
  }

  function Joined(content: seq<Part>): string {
    if content == [] then ""
    else if content[|content| - 1].Text? then Joined(content[..|content| - 1]) + content[|content| - 1].text
    else Joined(content[..|content| - 1])
  }

  function Calls(content: seq<Part>): seq<Part> {
    if content == [] then []
    else if content[|content| - 1].Call? then Calls(content[..|content| - 1]) + [content[|content| - 1]]
    else Calls(content[..|content| - 1])
  }

  function Normal(content: seq<Part>): seq<Part> {
    Reasonings(content) + TextPart(Joined(content)) + Calls(content)
  }

  function Rank(part: Part): nat {
    match part
    case Reasoning(_, _) => 0
    case Text(_) => 1
    case Call(_, _, _) => 2
    case Other => 3
  }

  /** Reasoning, then at most one text and not an empty one, then tool calls, and nothing else. */
  predicate InOrder(content: seq<Part>) {
    && (forall i, j :: 0 <= i < j < |content| ==> Rank(content[i]) <= Rank(content[j]) && !(content[i].Text? && content[j].Text?))
    && (forall i :: 0 <= i < |content| ==> !content[i].Other? && content[i] != Text(""))
  }

  lemma {:induction false} OnlyReasoning(content: seq<Part>)
    requires OnlyReasons(content)
    ensures Joined(content) == "" && Calls(content) == [] && Reasonings(content) == content
  {
    if content != [] {
      var init, last := content[..|content| - 1], content[|content| - 1];
      OnlyReasoning(init);
      assert content == init + [last];
    }
  }

  lemma {:induction false} AllOfAKind(content: seq<Part>)
    ensures forall i :: 0 <= i < |Reasonings(content)| ==> Reasonings(content)[i].Reasoning?
    ensures forall i :: 0 <= i < |Calls(content)| ==> Calls(content)[i].Call?
  {
    if content != [] {
      AllOfAKind(content[..|content| - 1]);
    }
  }

  lemma NormalNext(content: seq<Part>, last: Part)
    requires last.Call? || ((last.Reasoning? || last.Text?) && last != Text("") && OnlyReasons(content))
    ensures Normal(content + [last]) == Normal(content) + [last]
  {
    assert (content + [last])[..|content|] == content;
    if !last.Call? {
      OnlyReasoning(content);
      if last.Text? {
        assert "" + last.text == last.text;
      }
    }
  }

  predicate OnlyReasons(content: seq<Part>) {
    forall i :: 0 <= i < |content| ==> content[i].Reasoning?
  }

  lemma {:induction false} InOrderIsNormal(content: seq<Part>)
    requires InOrder(content)
    ensures Normal(content) == content
  {
    if content != [] {
      var init, last := content[..|content| - 1], content[|content| - 1];
      InOrderIsNormal(init);
      assert content == init + [last];
      forall i | 0 <= i < |init|
        ensures last.Call? || init[i].Reasoning?
      {
        assert Rank(content[i]) <= Rank(content[|init|]);
      }
      NormalNext(init, last);
    }
  }

  /** A message is its own normal form exactly when it is in order. */
  lemma NormalIff(content: seq<Part>)
    ensures Normal(content) == content <==> InOrder(content)
    ensures InOrder(Normal(content))
  {
    AllOfAKind(content);
    if InOrder(content) {
      InOrderIsNormal(content);
    }
  }

  // ---------------------------------------------------------------- there and back

  lemma LastLatest(parts: seq<StreamPart>, k: nat)
    requires k < |Starts(parts)|
    ensures var starts := Starts(parts);
            var last := starts[|starts| - 1];
            parts[starts[k]].id == parts[last].id ==> (Latest(parts, starts[k], parts[last].id) <==> k == |starts| - 1)
  {
    var starts := Starts(parts);
    var last := starts[|starts| - 1];
    if k < |starts| - 1 {
      assert starts[k] < last;
    } else {
      forall j | last < j < |parts|
        ensures !parts[j].ReasoningStart?
      {
        assert parts[j].ReasoningStart? ==> j in starts;
      }
    }
  }

  lemma StartsSame(parts: seq<StreamPart>, p: StreamPart)
    requires !p.ReasoningStart?
    ensures Starts(parts + [p]) == Starts(parts)
  {
    assert (parts + [p])[..|parts|] == parts;
  }

  lemma ContinueLastAt(parts: seq<StreamPart>, p: StreamPart, k: nat)
    requires (p.ReasoningDelta? || p.ReasoningEnd?) && k < |Starts(parts)|
    requires parts[Starts(parts)[|Starts(parts)| - 1]].id == p.id
    ensures var block := Block(parts, Starts(parts)[k]);
            Block(parts + [p], Starts(parts)[k])
            == if k == |Starts(parts)| - 1 then Reasoning(block.text + p.delta, if p.meta != map[] then p.meta else block.options)
               else block
  {
    BlockNext(parts, p, Starts(parts)[k]);
    LastLatest(parts, k);
  }

  /** More under the ID of the last block goes to that block. */
  lemma ContinueLast(parts: seq<StreamPart>, before: seq<Part>, last: Part, p: StreamPart)
    requires (p.ReasoningDelta? || p.ReasoningEnd?) && BlocksOf(parts) == before + [last] && last.Reasoning?
    requires parts[Starts(parts)[|Starts(parts)| - 1]].id == p.id
    ensures BlocksOf(parts + [p]) == before + [Reasoning(last.text + p.delta, if p.meta != map[] then p.meta else last.options)]
  {
    StartsSame(parts, p);
    var after := BlocksOf(parts + [p]);
    forall k | 0 <= k < |before|
      ensures after[k] == before[k]
    {
      ContinueLastAt(parts, p, k);
      assert BlocksOf(parts)[k] == before[k];
    }
    ContinueLastAt(parts, p, |before|);
    assert BlocksOf(parts)[|before|] == last;
  }

  lemma ReasoningChunk(parts: seq<StreamPart>, part: Part, position: nat)
    requires part.Reasoning?
    ensures BlocksOf(parts + Chunk(part, position)) == BlocksOf(parts) + [part]
  {
    var c, b := Chunk(part, position), BlocksOf(parts);
    var p1, p2 := parts + [c[0]], parts + [c[0]] + [c[1]];
    assert p1[..|parts|] == parts;
    assert Starts(p1) == Starts(parts) + [|parts|];
    StartNext(parts, c[0]);
    ContinueLast(p1, b, Reasoning("", map[]), c[1]);
    StartsSame(p1, c[1]);
    assert "" + part.text == part.text && part.text + "" == part.text;
    ContinueLast(p2, b, Reasoning(part.text, map[]), c[2]);
    assert parts + c == p2 + [c[2]];
  }

  lemma OtherPart(parts: seq<StreamPart>, p: StreamPart)
    requires !p.ReasoningStart? && !p.ReasoningDelta? && !p.ReasoningEnd?
    ensures BlocksOf(parts + [p]) == BlocksOf(parts)
  {
    StartsSame(parts, p);
    forall k | 0 <= k < |Starts(parts)|
      ensures Block(parts + [p], Starts(parts)[k]) == Block(parts, Starts(parts)[k])
    {
      BlockNext(parts, p, Starts(parts)[k]);
    }
  }

  lemma PartNext(parts: seq<StreamPart>, p: StreamPart)
    ensures TextOf(parts + [p]) == if p.TextDelta? then TextOf(parts) + p.delta else TextOf(parts)
    ensures CallsOf(parts + [p])
            == if p.ToolCall? && !p.providerExecuted then CallsOf(parts) + [Call(p.id, p.name, p.input)] else CallsOf(parts)
  {
    assert (parts + [p])[..|parts|] == parts;
  }

  lemma ReasoningSilent(parts: seq<StreamPart>, part: Part, position: nat)
    requires part.Reasoning?
    ensures TextOf(parts + Chunk(part, position)) == TextOf(parts) && CallsOf(parts + Chunk(part, position)) == CallsOf(parts)
  {
    var c := Chunk(part, position);
    PartNext(parts, c[0]);
    PartNext(parts + [c[0]], c[1]);
    PartNext(parts + [c[0]] + [c[1]], c[2]);
    assert parts + c == parts + [c[0]] + [c[1]] + [c[2]];
  }

  /** What one chunk adds to a stream. */
  lemma ChunkSays(parts: seq<StreamPart>, part: Part, position: nat)
    ensures var next := parts + Chunk(part, position);
            && BlocksOf(next) == (if part.Reasoning? then BlocksOf(parts) + [part] else BlocksOf(parts))
            && TextOf(next) == (if part.Text? then TextOf(parts) + part.text else TextOf(parts))
            && CallsOf(next) == if part.Call? then CallsOf(parts) + [part] else CallsOf(parts)
  {
    if part.Reasoning? {
      ReasoningChunk(parts, part, position);
      ReasoningSilent(parts, part, position);
    } else if part.Other? {
      assert parts + [] == parts;
    } else {
      OtherPart(parts, Chunk(part, position)[0]);
      PartNext(parts, Chunk(part, position)[0]);
    }
  }

  lemma {:induction false} ChunksSay(content: seq<Part>)
    ensures BlocksOf(Chunks(content)) == Reasonings(content)
    ensures TextOf(Chunks(content)) == Joined(content) && CallsOf(Chunks(content)) == Calls(content)
  {
    if content != [] {
      ChunksSay(content[..|content| - 1]);
      ChunkSays(Chunks(content[..|content| - 1]), content[|content| - 1], |content| - 1);
    }
  }

  /** A whole answer sent as a stream is collected as its normal form, so as itself if it is in order. */
  lemma RoundTrip(content: seq<Part>, usage: nat)
    ensures Collected(Streamed(content, usage)) == Ok(Normal(content)) && UsageOf(Streamed(content, usage)) == usage
    ensures InOrder(content) <==> Collected(Streamed(content, usage)) == Ok(content)
  {
    ChunksSay(content);
    assert Streamed(content, usage)[..|Chunks(content)|] == Chunks(content);
    OtherPart(Chunks(content), Finish(usage, Stop));
    PartNext(Chunks(content), Finish(usage, Stop));
    NormalIff(content);
  }

  lemma {:induction false} CallsAreCalls(parts: seq<StreamPart>)
    ensures forall i :: 0 <= i < |CallsOf(parts)| ==> CallsOf(parts)[i].Call?
  {
    if parts != [] {
      CallsAreCalls(parts[..|parts| - 1]);
    }
  }

  /** Whatever stream it came from, an answer once collected is collected as itself again. */
  lemma CollectedAgain(parts: seq<StreamPart>, usage: nat)
    requires Collected(parts).Ok?
    ensures Collected(Streamed(Collected(parts).value, usage)) == Collected(parts)
  {
    CallsAreCalls(parts);
    assert InOrder(Collected(parts).value);
    RoundTrip(Collected(parts).value, usage);
  }
}
