/** One agent turn (metaharness/agent/run.go): the loop that answers tool calls, asks the model and
    saves, until the model stops asking for tools or something fails. */
module AgentTurn {
  import opened Wrappers
  import opened SessionStore

  datatype Role = User | Assistant | Tool

  datatype Part = Text(text: string) | Reasoning(text: string) | Call(id: string, tool: string, input: string)
                | Result(call: string, content: string, isError: bool)

  datatype Message = Message(role: Role, content: seq<Part>)

  datatype Event = Said(m: Message) | Answered(m: Message) | Done(m: Message) | Failed(why: Cause)

  /** What ends a turn early. */
  datatype Cause = Cancelled | ModelFailed | SaveFailed

  /** What running a tool came to: a result, which may report an error itself, or an error. */
  datatype Outcome = Came(content: string, isError: bool) | Broke(error: string)

  // ---------------------------------------------------------------- calls and their answers

  function CallsIn(parts: seq<Part>): (calls: seq<Part>)
    ensures forall i :: 0 <= i < |calls| ==> calls[i].Call?
  {
    if parts == [] then []
    else (if parts[0].Call? then [parts[0]] else []) + CallsIn(parts[1..])
  }

  /** The tool calls of an assistant message; no other message has any. */
  function ToolCalls(m: Message): (calls: seq<Part>)
    ensures forall i :: 0 <= i < |calls| ==> calls[i].Call?
  {
    if m.role == Assistant then CallsIn(m.content) else []
  }

  /** at are the positions of the calls among parts, all of them, in order. */
  ghost predicate CallsAt(parts: seq<Part>, at: seq<nat>) {
    && (forall n :: 0 <= n < |at| ==> at[n] < |parts| && parts[at[n]].Call?)
    && (forall n, k :: 0 <= n < k < |at| ==> at[n] < at[k])
    && (forall j: nat :: j < |parts| && parts[j].Call? ==> j in at)
  }

  /** No call of a text is left out. */
  lemma {:induction false} CallsAppend(parts: seq<Part>, more: seq<Part>)
    ensures CallsIn(parts + more) == CallsIn(parts) + CallsIn(more)
  {
    if parts == [] {
      assert parts + more == more;
    } else {
      CallsAppend(parts[1..], more);
      assert (parts + more)[1..] == parts[1..] + more;
    }
  }

  lemma CallsLast(parts: seq<Part>)
    requires parts != []
    ensures var init, last := parts[..|parts| - 1], parts[|parts| - 1];
            CallsIn(parts) == CallsIn(init) + (if last.Call? then [last] else [])
  {
    var init, last := parts[..|parts| - 1], parts[|parts| - 1];
    CallsAppend(init, [last]);
    assert init + [last] == parts;
    assert CallsIn([last]) == if last.Call? then [last] else [];
  }

  lemma {:induction false} CallsByPosition(parts: seq<Part>) returns (at: seq<nat>)
    ensures CallsAt(parts, at)
  {
    at := [];
    if parts != [] {
      var init := parts[..|parts| - 1];
      at := CallsByPosition(init);
      if parts[|parts| - 1].Call? {
        PositionsNext(init, at);
        assert init + [parts[|parts| - 1]] == parts;
        at := at + [|init|];
      }
    }
  }

  lemma PositionsNext(init: seq<Part>, at: seq<nat>)
    requires CallsAt(init, at)
    ensures forall last: Part :: last.Call? ==> CallsAt(init + [last], at + [|init|])
  {
    var more := at + [|init|];
    assert more[|at|] == |init|;
    forall j: nat | j < |init| && init[j].Call?
      ensures j in more
    {
      var n :| 0 <= n < |at| && at[n] == j;
      assert more[n] == j;
    }
  }

  /** The positions before the last part. */
  lemma PositionsBefore(parts: seq<Part>, at: seq<nat>) returns (before: seq<nat>)
    requires parts != [] && CallsAt(parts, at)
    ensures CallsAt(parts[..|parts| - 1], before)
    ensures at == before + (if parts[|parts| - 1].Call? then [|parts| - 1] else [])
  {
    var last: nat := |parts| - 1;
    before := at;
    if parts[last].Call? {
      var k :| 0 <= k < |at| && at[k] == last;
      assert k == |at| - 1;
      before := at[..k];
      forall j: nat | j < last && parts[..last][j].Call?
        ensures j in before
      {
        var n :| 0 <= n < |at| && at[n] == j;
        assert before[n] == j;
      }
    }
  }

  lemma NoneAt(at: seq<nat>)
    requires CallsAt([], at)
    ensures at == []
  {
    FirstIn(at);
  }

  lemma FirstIn(at: seq<nat>)
    ensures at == [] || at[0] in at
  {
  }

  /** CallsIn is exactly what stands at these positions. */
  lemma {:induction false} CallsAreAll(parts: seq<Part>, at: seq<nat>)
    requires CallsAt(parts, at)
    ensures |CallsIn(parts)| == |at| && forall n :: 0 <= n < |at| ==> CallsIn(parts)[n] == parts[at[n]]
  {
    if parts == [] {
      NoneAt(at);
    } else {
      var before := PositionsBefore(parts, at);
      CallsAreAll(parts[..|parts| - 1], before);
      CallsLast(parts);
    }
  }

  lemma NoCalls(parts: seq<Part>)
    ensures CallsIn(parts) == [] <==> forall j :: 0 <= j < |parts| ==> !parts[j].Call?
  {
    var at := CallsByPosition(parts);
    CallsAreAll(parts, at);
    if at != [] {
      assert parts[at[0]].Call?;
    }
  }

  predicate IsAnswer(m: Message, id: string) {
    m.role == Tool && |m.content| == 1 && m.content[0].Result? && m.content[0].call == id
  }

  /** Position k is taken by a call of the message at i. */
  predicate Owns(msgs: seq<Message>, i: nat, k: nat) {
    i < |msgs| && i < k <= i + |ToolCalls(msgs[i])|
  }

  ghost predicate Owned(msgs: seq<Message>, k: nat) {
    exists i :: Owns(msgs, i, k)
  }

  /** The calls due are answered so far, each once, in order, by its own ID, and nothing is
      answered that was not called; the calls whose turn has not come yet are those in due. */
  ghost predicate Due(msgs: seq<Message>, due: seq<Part>) {
    && (forall k :: 0 <= k < |msgs| && msgs[k].role == Tool ==> Owned(msgs, k))
    && (forall i: nat, k: nat :: Owns(msgs, i, k) ==> Paid(msgs, due, k, ToolCalls(msgs[i])[k - i - 1]))
    && (forall k :: |msgs| <= k < |msgs| + |due| ==> Owned(msgs, k))
  }

  predicate Paid(msgs: seq<Message>, due: seq<Part>, k: nat, call: Part)
    requires call.Call?
  {
    if k < |msgs| then IsAnswer(msgs[k], call.id) else k < |msgs| + |due| && due[k - |msgs|] == call
  }

  /** Every call has its answer behind it. */
  ghost predicate Balanced(msgs: seq<Message>) {
    Due(msgs, [])
  }

  /** If message j is the assistant's, right behind it come the answers to all its calls, in order,
      each under its own ID. */
  ghost predicate Replied(msgs: seq<Message>, j: nat)
    requires j < |msgs|
  {
    msgs[j].role == Assistant ==>
      exists at :: && CallsAt(msgs[j].content, at) && j + |at| < |msgs|
                   && forall n :: 0 <= n < |at| ==> IsAnswer(msgs[j + 1 + n], msgs[j].content[at[n]].id)
  }

  /** Message k comes among the answers to a message of the assistant. */
  ghost predicate Behind(msgs: seq<Message>, k: nat) {
    exists j: nat, at :: j < |msgs| && msgs[j].role == Assistant && CallsAt(msgs[j].content, at) && j < k <= j + |at|
  }

  lemma RepliedMeans(msgs: seq<Message>, j: nat)
    requires j < |msgs| && Replied(msgs, j)
    ensures forall k: nat :: Owns(msgs, j, k) ==> Paid(msgs, [], k, ToolCalls(msgs[j])[k - j - 1])
  {
    if msgs[j].role == Assistant {
      var at :| && CallsAt(msgs[j].content, at) && j + |at| < |msgs|
                && forall n :: 0 <= n < |at| ==> IsAnswer(msgs[j + 1 + n], msgs[j].content[at[n]].id);
      CallsAreAll(msgs[j].content, at);
      assert forall k: nat :: Owns(msgs, j, k) ==> IsAnswer(msgs[j + 1 + (k - j - 1)], msgs[j].content[at[k - j - 1]].id);
    }
  }

  lemma BalancedReplies(msgs: seq<Message>, j: nat)
    requires Balanced(msgs) && j < |msgs|
    ensures Replied(msgs, j)
  {
    if msgs[j].role == Assistant {
      var at := CallsByPosition(msgs[j].content);
      CallsAreAll(msgs[j].content, at);
      if at != [] {
        assert Owns(msgs, j, j + |at|);
      }
      forall n | 0 <= n < |at|
        ensures IsAnswer(msgs[j + 1 + n], msgs[j].content[at[n]].id)
      {
        assert Owns(msgs, j, j + 1 + n);
      }
    }
  }

  lemma BehindMeans(msgs: seq<Message>, k: nat)
    ensures Behind(msgs, k) <==> Owned(msgs, k)
  {
    if Owned(msgs, k) {
      var i: nat :| Owns(msgs, i, k);
      var at := CallsByPosition(msgs[i].content);
      CallsAreAll(msgs[i].content, at);
    }
    if Behind(msgs, k) {
      var j: nat, at :| j < |msgs| && msgs[j].role == Assistant && CallsAt(msgs[j].content, at) && j < k <= j + |at|;
      CallsAreAll(msgs[j].content, at);
      assert Owns(msgs, j, k);
    }
  }

  /** A transcript is balanced exactly when all calls of each message are answered right behind it,
      and no other message is an answer. */
  lemma BalancedIff(msgs: seq<Message>)
    ensures Balanced(msgs) <==>
              && (forall j: nat :: j < |msgs| ==> Replied(msgs, j))
              && (forall k: nat :: k < |msgs| && msgs[k].role == Tool ==> Behind(msgs, k))
  {
    forall k: nat
      ensures Behind(msgs, k) <==> Owned(msgs, k)
    {
      BehindMeans(msgs, k);
    }
    if Balanced(msgs) {
      forall j: nat | j < |msgs|
        ensures Replied(msgs, j)
      {
        BalancedReplies(msgs, j);
      }
    }
    if forall j: nat :: j < |msgs| ==> Replied(msgs, j) {
      forall j: nat, k: nat | Owns(msgs, j, k)
        ensures Paid(msgs, [], k, ToolCalls(msgs[j])[k - j - 1])
      {
        RepliedMeans(msgs, j);
      }
    }
  }

  function LastCalls(msgs: seq<Message>): (calls: seq<Part>)
    ensures forall i :: 0 <= i < |calls| ==> calls[i].Call?
  {
    if msgs == [] then [] else ToolCalls(msgs[|msgs| - 1])
  }

  /** Balanced, or ending in a message none of whose calls is answered yet. */
  ghost predicate Resumable(msgs: seq<Message>) {
    Due(msgs, LastCalls(msgs))
  }

  lemma OwnedGrow(msgs: seq<Message>, m: Message, k: nat)
    requires Owned(msgs, k)
    ensures Owned(msgs + [m], k)
  {
    var i :| Owns(msgs, i, k);
    assert Owns(msgs + [m], i, k);
  }

  /** The next answer: it has to be to the first call due. */
  lemma AnswerDue(msgs: seq<Message>, due: seq<Part>, m: Message)
    requires due != [] && due[0].Call? && Due(msgs, due) && IsAnswer(m, due[0].id)
    ensures Due(msgs + [m], due[1..])
  {
    var next := msgs + [m];
    forall k | 0 <= k < |next| && next[k].role == Tool
      ensures Owned(next, k)
    {
      OwnedGrow(msgs, m, k);
    }
    forall i: nat, k: nat | Owns(next, i, k)
      ensures Paid(next, due[1..], k, ToolCalls(next[i])[k - i - 1])
    {
      assert i < |msgs| && Owns(msgs, i, k);
    }
    forall k | |next| <= k < |next| + |due[1..]|
      ensures Owned(next, k)
    {
      OwnedGrow(msgs, m, k);
    }
  }

  lemma AnswerNext(msgs: seq<Message>, calls: seq<Part>, i: nat, m: Message)
    requires i < |calls| && calls[i].Call? && Due(msgs, calls[i..]) && IsAnswer(m, calls[i].id)
    ensures Due(msgs + [m], calls[i + 1..]) && LastCalls(msgs + [m]) == []
  {
    AnswerDue(msgs, calls[i..], m);
    assert calls[i..][1..] == calls[i + 1..];
  }

  /** With nothing due, any message but an answer may follow, and its own calls become due. */
  lemma MessageDue(msgs: seq<Message>, m: Message)
    requires Due(msgs, []) && m.role != Tool
    ensures Due(msgs + [m], ToolCalls(m)) && LastCalls(msgs + [m]) == ToolCalls(m)
  {
    var next := msgs + [m];
    forall k | 0 <= k < |next| && next[k].role == Tool
      ensures Owned(next, k)
    {
      OwnedGrow(msgs, m, k);
    }
    forall i: nat, k: nat | Owns(next, i, k)
      ensures Paid(next, ToolCalls(m), k, ToolCalls(next[i])[k - i - 1])
    {
      if i < |msgs| {
        assert Owns(msgs, i, k);
      }
    }
    forall k | |next| <= k < |next| + |ToolCalls(m)|
      ensures Owned(next, k)
    {
      assert Owns(next, |msgs|, k);
    }
  }

  /** A user message after a transcript that can be resumed leaves one that can be resumed exactly
      when no call of the transcript is open. */
  lemma UserMessageResumes(msgs: seq<Message>, m: Message)
    requires Resumable(msgs) && m.role == User
    ensures Resumable(msgs + [m]) <==> LastCalls(msgs) == []
    ensures Balanced(msgs + [m]) <==> LastCalls(msgs) == []
  {
    assert ToolCalls(m) == [];
    if LastCalls(msgs) == [] {
      MessageDue(msgs, m);
    } else {
      assert Owns(msgs + [m], |msgs| - 1, |msgs|);
      assert !IsAnswer((msgs + [m])[|msgs|], ToolCalls(msgs[|msgs| - 1])[0].id);
    }
  }

  // ---------------------------------------------------------------- what a turn leaves behind

  function Plus(u: Usage, v: Usage): Usage {
    Usage(u.input + v.input, u.output + v.output, u.total + v.total,
          u.reasoning + v.reasoning, u.cacheCreation + v.cacheCreation, u.cacheRead + v.cacheRead)
  }

  function Total(start: Usage, used: seq<Usage>): Usage {
    if used == [] then start else Plus(Total(start, used[..|used| - 1]), used[|used| - 1])
  }

  /** What a turn did: the transcripts it asked the model about, what each of these calls used, what
      the store accepted, and what it was offered last. */
  datatype Log = Log(asked: seq<seq<Message>>, used: seq<Usage>, saved: seq<Record<Message>>, offered: Option<Record<Message>>)

  const NOTHING := Log([], [], [], None)

  ghost predicate IsSaved(saved: seq<Record<Message>>, msgs: seq<Message>) {
    exists i :: 0 <= i < |saved| && saved[i].messages == msgs
  }

  /** The turn began with msgs, or the store has it. */
  ghost predicate Kept(log: Log, start: seq<Message>, msgs: seq<Message>) {
    msgs == start || IsSaved(log.saved, msgs)
  }

  /** msgs lies between the transcript the turn began with and the one it has now. */
  predicate Between(start: seq<Message>, msgs: seq<Message>, now: seq<Message>) {
    start <= msgs <= now
  }

  /** It is the model's turn: nothing was said yet, or last by the user or a tool. */
  predicate Open(msgs: seq<Message>) {
    msgs == [] || msgs[|msgs| - 1].role != Assistant
  }

  ghost predicate LogOk(log: Log, id: string, start: seq<Message>, now: seq<Message>) {
    && start <= now && |log.used| == |log.asked|
    && (forall i :: 0 <= i < |log.asked| ==> Open(log.asked[i]))
    && (forall i :: 0 <= i < |log.asked| ==>
          Balanced(log.asked[i]) && Kept(log, start, log.asked[i]) && Between(start, log.asked[i], now))
    && (forall i :: 0 <= i < |log.saved| ==>
          log.saved[i].id == id && Resumable(log.saved[i].messages) && Between(start, log.saved[i].messages, now))
    && (forall i, j :: 0 <= i < j < |log.saved| ==> log.saved[i].messages <= log.saved[j].messages)
  }

  lemma AllReplied(log: Log, id: string, start: seq<Message>, now: seq<Message>)
    requires LogOk(log, id, start, now)
    ensures forall i, j: nat :: 0 <= i < |log.asked| && j < |log.asked[i]| ==> Replied(log.asked[i], j)
  {
    forall i, j: nat | 0 <= i < |log.asked| && j < |log.asked[i]|
      ensures Replied(log.asked[i], j)
    {
      BalancedReplies(log.asked[i], j);
    }
  }

  lemma LogGrow(log: Log, id: string, start: seq<Message>, now: seq<Message>, more: seq<Message>)
    requires LogOk(log, id, start, now)
    ensures LogOk(log, id, start, now + more)
  {
  }

  lemma LogAsked(log: Log, id: string, start: seq<Message>, now: seq<Message>, u: Usage)
    requires LogOk(log, id, start, now) && Balanced(now) && Open(now) && Kept(log, start, now)
    ensures LogOk(log.(asked := log.asked + [now], used := log.used + [u]), id, start, now)
  {
  }

  lemma KeptGrows(log: Log, start: seq<Message>, msgs: seq<Message>, rec: Record<Message>)
    requires Kept(log, start, msgs)
    ensures Kept(log.(saved := log.saved + [rec]), start, msgs)
  {
    if msgs != start {
      var j :| 0 <= j < |log.saved| && log.saved[j].messages == msgs;
      assert (log.saved + [rec])[j].messages == msgs;
    }
  }

  lemma LogSaved(log: Log, id: string, start: seq<Message>, now: seq<Message>, meta: Meta)
    requires LogOk(log, id, start, now) && Resumable(now)
    ensures LogOk(log.(saved := log.saved + [Record(id, meta, now)]), id, start, now)
    ensures IsSaved(log.saved + [Record(id, meta, now)], now)
  {
    var saved := log.saved + [Record(id, meta, now)];
    assert saved[|log.saved|].messages == now;
    forall i | 0 <= i < |log.asked|
      ensures Kept(log.(saved := saved), start, log.asked[i])
    {
      KeptGrows(log, start, log.asked[i], Record(id, meta, now));
    }
  }

  lemma LogOffered(log: Log, id: string, start: seq<Message>, now: seq<Message>, rec: Record<Message>)
    requires LogOk(log, id, start, now)
    ensures LogOk(log.(offered := Some(rec)), id, start, now)
  {
  }

  lemma TotalNext(start: Usage, used: seq<Usage>, u: Usage)
    ensures Total(start, used + [u]) == Plus(Total(start, used), u)
  {
    assert (used + [u])[..|used|] == used;
  }

  /** The messages an unfinished stream of events has reported. */
  function Reported(events: seq<Event>): Option<seq<Message>> {
    if events == [] then Some([])
    else
      var last := events[|events| - 1];
      var before := Reported(events[..|events| - 1]);
      if before.None? || last.Done? || last.Failed? then None else Some(before.value + [last.m])
  }

  lemma ReportedNext(events: seq<Event>, e: Event, msgs: seq<Message>)
    requires Reported(events) == Some(msgs) && (e.Said? || e.Answered?)
    ensures Reported(events + [e]) == Some(msgs + [e.m])
  {
    assert (events + [e])[..|events|] == events;
  }

  /** A turn in the middle: its log, and its events report exactly the messages it added. */
  ghost predicate Going(log: Log, id: string, start: seq<Message>, msgs: seq<Message>, events: seq<Event>) {
    LogOk(log, id, start, msgs) && Reported(events) == Some(msgs[|start|..])
  }

  lemma GoingStart(id: string, msgs: seq<Message>)
    ensures Going(NOTHING, id, msgs, msgs, [])
  {
    assert msgs[|msgs|..] == [];
  }

  lemma GoingNext(log: Log, id: string, start: seq<Message>, msgs: seq<Message>, events: seq<Event>, e: Event)
    requires Going(log, id, start, msgs, events) && (e.Said? || e.Answered?)
    ensures Going(log, id, start, msgs + [e.m], events + [e])
  {
    LogGrow(log, id, start, msgs, [e.m]);
    ReportedNext(events, e, msgs[|start|..]);
    assert (msgs + [e.m])[|start|..] == msgs[|start|..] + [e.m];
  }

  /** What was added to the one was added to the other. */
  ghost predicate Adds<T(!new)>(before: seq<T>, log: seq<T>, after: seq<T>, next: seq<T>) {
    exists more :: after == before + more && next == log + more
  }

  lemma AddsNone<T(!new)>(before: seq<T>, log: seq<T>)
    ensures Adds(before, log, before, log)
  {
    assert before == before + [] && log == log + [];
  }

  lemma AddsOne<T(!new)>(before: seq<T>, log: seq<T>, x: T)
    ensures Adds(before, log, before + [x], log + [x])
  {
  }

  lemma AddsToAll<T(!new)>(start: seq<T>, log: seq<T>, after: seq<T>, next: seq<T>)
    requires Adds(start + log, log, after, next)
    ensures after == start + next
  {
    var more :| after == start + log + more && next == log + more;
    assert start + log + more == start + (log + more);
  }

  /** How a turn ends: completed with its last message, or failed. */
  predicate Ended(end: Event, status: string, msgs: seq<Message>) {
    || (end.Done? && status == "completed" && msgs != [] && end.m == msgs[|msgs| - 1]
        && end.m.role == Assistant && forall j :: 0 <= j < |end.m.content| ==> !end.m.content[j].Call?)
    || (end.Failed? && status == "failed")
  }

  // ---------------------------------------------------------------- the turn

  class Session {
    const id: string
    var model: string
    var messages: seq<Message>
    var usage: Usage
    var status: string
    var name: string

    constructor (id: string, model: string, name: string)
      ensures messages == [] && status == "active" && this.id == id
    {
      this.id, this.model, this.name := id, model, name;
      messages, usage, status := [], Usage(0, 0, 0, 0, 0, 0), "active";
    }

    function Rec(): Record<Message>
      reads this
    {
      Record(id, Meta(model, status, name, usage), messages)
    }
  }

  /** What a turn depends on: the context, the model, the tools and the store, each of which may
      fail. troubles are the failures that end a turn, ran the calls that tools were run for, asked
      what the model was asked about, offered what the store was offered, and stored what it took. */
  class Outside {
    ghost var troubles: seq<Cause>
    ghost var ran: seq<Part>
    ghost var asked: seq<seq<Message>>
    ghost var offered: seq<Record<Message>>
    ghost var stored: seq<Record<Message>>

    constructor ()
      ensures troubles == [] && ran == [] && asked == [] && offered == [] && stored == []
    {
      troubles, ran, asked, offered, stored := [], [], [], [], [];
    }

    /** Whether the context is cancelled. Whoever made it gives up in the end. */
    method IsCancelled(atLast: bool) returns (yes: bool)
      modifies this`troubles
      ensures atLast ==> yes
      ensures troubles == if yes then old(troubles) + [Cancelled] else old(troubles)
    {
      yes := *;
      yes := yes || atLast;
      troubles := if yes then troubles + [Cancelled] else troubles;
    }

    method Execute(call: Part) returns (outcome: Outcome)
      modifies this`ran
      ensures ran == old(ran) + [call]
    {
      outcome := *;
      ran := ran + [call];
    }

    method Generate(msgs: seq<Message>) returns (answer: Option<seq<Part>>, usage: Usage)
      modifies this`troubles, this`asked
      ensures troubles == if answer.None? then old(troubles) + [ModelFailed] else old(troubles)
      ensures asked == old(asked) + [msgs]
    {
      answer, usage := *, *;
      asked := asked + [msgs];
      troubles := if answer.None? then troubles + [ModelFailed] else troubles;
    }

    method Store(rec: Record<Message>) returns (ok: bool)
      modifies this`troubles, this`offered, this`stored
      ensures offered == old(offered) + [rec]
      ensures troubles == if ok then old(troubles) else old(troubles) + [SaveFailed]
      ensures stored == if ok then old(stored) + [rec] else old(stored)
    {
      ok := *;
      offered, stored := offered + [rec], if ok then stored + [rec] else stored;
      troubles := if ok then troubles else troubles + [SaveFailed];
    }

    /** A store that refuses the last save of a turn ends nothing. */
    method StoreLast(rec: Record<Message>) returns (ok: bool)
      modifies this`offered, this`stored
      ensures offered == old(offered) + [rec]
      ensures stored == if ok then old(stored) + [rec] else old(stored)
    {
      ok := *;
      offered, stored := offered + [rec], if ok then stored + [rec] else stored;
    }
  }

  class Agent {
    const tools: set<string>
    const outside: Outside

    constructor (tools: set<string>, outside: Outside)
      ensures this.tools == tools && this.outside == outside
    {
      this.tools, this.outside := tools, outside;
    }

    /** Runs one tool, once. Whatever goes wrong becomes an error result for the model. */
    method Dispatch(call: Part) returns (res: Message, ghost outcome: Option<Outcome>)
      requires call.Call?
      modifies outside`ran
      ensures IsAnswer(res, call.id) && (outcome.Some? <==> call.tool in tools)
      ensures outside.ran == if call.tool in tools then old(outside.ran) + [call] else old(outside.ran)
      ensures res.content[0] == match outcome
                                case None => Result(call.id, "unknown tool: " + call.tool, true)
                                case Some(Came(content, isError)) => Result(call.id, content, isError)
                                case Some(Broke(error)) => Result(call.id, error, true)
    {
      if call.tool !in tools {
        return Message(Tool, [Result(call.id, "unknown tool: " + call.tool, true)]), None;
      }
      var came := outside.Execute(call);
      var result := match came
                    case Came(content, isError) => Result(call.id, content, isError)
                    case Broke(error) => Result(call.id, error, true);
      return Message(Tool, [result]), Some(came);
    }

    /** The store takes the session as it is, or refuses. */
    method Save(sess: Session, last: bool, ghost log: Log, ghost start: seq<Message>) returns (ok: bool, ghost next: Log)
      requires LogOk(log, sess.id, start, sess.messages) && Resumable(sess.messages)
      modifies outside`troubles, outside`offered, outside`stored
      ensures outside.offered == old(outside.offered) + [sess.Rec()]
      ensures Adds(old(outside.stored), log.saved, outside.stored, next.saved)
      ensures outside.troubles == if ok || last then old(outside.troubles) else old(outside.troubles) + [SaveFailed]
      ensures LogOk(next, sess.id, start, sess.messages) && next.asked == log.asked && next.used == log.used
      ensures next.saved == (if ok then log.saved + [sess.Rec()] else log.saved) && next.offered == Some(sess.Rec())
      ensures ok || Kept(log, start, sess.messages) ==> Kept(next, start, sess.messages)
    {
      if last {
        ok := outside.StoreLast(sess.Rec());
      } else {
        ok := outside.Store(sess.Rec());
      }
      AddsNone(old(outside.stored), log.saved);
      AddsOne(old(outside.stored), log.saved, sess.Rec());
      LogOffered(log, sess.id, start, sess.messages, sess.Rec());
      next := log.(offered := Some(sess.Rec()));
      if ok {
        LogSaved(next, sess.id, start, sess.messages, sess.Rec().meta);
        next := next.(saved := next.saved + [sess.Rec()]);
      }
    }

    /** Those of the first n calls that are for tools the agent has. */
    function Known(calls: seq<Part>, n: nat): seq<Part>
      requires n <= |calls|
    {
      if n == 0 then []
      else if calls[n - 1].Call? && calls[n - 1].tool in tools then Known(calls, n - 1) + [calls[n - 1]] else Known(calls, n - 1)
    }

    /** The next open call, answered. */
    method AnswerOne(sess: Session, calls: seq<Part>, i: nat, out: seq<Event>, ghost log: Log, ghost start: seq<Message>,
                     ghost ran: seq<Part>, ghost was: seq<Message>)
      returns (events: seq<Event>)
      requires was <= sess.messages && |sess.messages| == |was| + i
      requires i < |calls| && outside.ran == ran + Known(calls, i)
      requires i < |calls| && calls[i].Call? && Due(sess.messages, calls[i..]) && Going(log, sess.id, start, sess.messages, out)
      modifies sess`messages, outside`ran
      ensures Due(sess.messages, calls[i + 1..]) && Going(log, sess.id, start, sess.messages, events)
      ensures LastCalls(sess.messages) == [] && was <= sess.messages && |sess.messages| == |was| + i + 1
      ensures outside.ran == ran + Known(calls, i + 1)
    {
      var res, _ := Dispatch(calls[i]);
      AnswerNext(sess.messages, calls, i, res);
      GoingNext(log, sess.id, start, sess.messages, out, Answered(res));
      sess.messages := sess.messages + [res];
      events := out + [Answered(res)];
    }

    /** The open calls, one by one. */
    method AnswerAll(sess: Session, calls: seq<Part>, out: seq<Event>, ghost log: Log, ghost start: seq<Message>)
      returns (events: seq<Event>)
      requires calls == LastCalls(sess.messages) && Due(sess.messages, calls) && Going(log, sess.id, start, sess.messages, out)
      modifies sess`messages, outside`ran
      ensures Due(sess.messages, []) && Going(log, sess.id, start, sess.messages, events) && LastCalls(sess.messages) == []
      ensures old(sess.messages) <= sess.messages && |sess.messages| == |old(sess.messages)| + |calls|
      ensures outside.ran == old(outside.ran) + Known(calls, |calls|)
    {
      events := out;
      ghost var ran, was := outside.ran, sess.messages;
      assert ran == ran + Known(calls, 0);
      assert calls[0..] == calls && calls[|calls|..] == [];
      for i := 0 to |calls|
        invariant Due(sess.messages, calls[i..]) && Going(log, sess.id, start, sess.messages, events)
        invariant i > 0 ==> LastCalls(sess.messages) == []
        invariant was <= sess.messages && |sess.messages| == |was| + i
        invariant outside.ran == ran + Known(calls, i)
      {
        events := AnswerOne(sess, calls, i, events, log, start, ran, was);
      }
    }

    /** The calls of the last message, answered one by one; the tools that are known are run once each. */
    method AnswerCalls(sess: Session, out: seq<Event>, ghost log: Log, ghost start: seq<Message>) returns (events: seq<Event>)
      requires Resumable(sess.messages) && Going(log, sess.id, start, sess.messages, out)
      modifies sess`messages, outside`ran
      ensures Balanced(sess.messages) && Going(log, sess.id, start, sess.messages, events)
      ensures forall j: nat :: j < |sess.messages| ==> Replied(sess.messages, j)
      ensures LastCalls(sess.messages) == []
      ensures old(sess.messages) <= sess.messages && |sess.messages| == |old(sess.messages)| + |LastCalls(old(sess.messages))|
      ensures outside.ran == old(outside.ran) + Known(LastCalls(old(sess.messages)), |LastCalls(old(sess.messages))|)
    {
      events := AnswerAll(sess, LastCalls(sess.messages), out, log, start);
      BalancedIff(sess.messages);
    }

    /** The answer of the model, unless asking it failed; what it used counts either way. */
    method AskModel(sess: Session, out: seq<Event>, ghost log: Log, ghost start: seq<Message>)
      returns (ok: bool, events: seq<Event>, ghost next: Log)
      requires Balanced(sess.messages) && Open(sess.messages) && Going(log, sess.id, start, sess.messages, out)
      requires Kept(log, start, sess.messages)
      modifies sess`messages, sess`usage, outside`troubles, outside`asked
      ensures outside.troubles == if ok then old(outside.troubles) else old(outside.troubles) + [ModelFailed]
      ensures outside.asked == old(outside.asked) + [old(sess.messages)] && next.saved == log.saved
      ensures Resumable(sess.messages) && Going(next, sess.id, start, sess.messages, events)
      ensures next.asked == log.asked + [old(sess.messages)] && |next.used| == |log.used| + 1
      ensures next.used[..|log.used|] == log.used && sess.usage == Plus(old(sess.usage), next.used[|log.used|])
      ensures var was, used, now := old(sess.usage), next.used[|log.used|], sess.usage;
              && now.input == was.input + used.input && now.output == was.output + used.output && now.total == was.total + used.total
              && now.reasoning == was.reasoning + used.reasoning
              && now.cacheCreation == was.cacheCreation + used.cacheCreation && now.cacheRead == was.cacheRead + used.cacheRead
      ensures if ok then |sess.messages| == |old(sess.messages)| + 1 && sess.messages[|old(sess.messages)|].role == Assistant
              else sess.messages == old(sess.messages)
    {
      var answer, usage := outside.Generate(sess.messages);
      ok := answer.Some?;
      LogAsked(log, sess.id, start, sess.messages, usage);
      next := log.(asked := log.asked + [sess.messages], used := log.used + [usage]);
      sess.usage := Plus(sess.usage, usage);
      events := out;
      if ok {
        var msg := Message(Assistant, answer.value);
        MessageDue(sess.messages, msg);
        GoingNext(next, sess.id, start, sess.messages, out, Said(msg));
        sess.messages := sess.messages + [msg];
        events := out + [Said(msg)];
      }
    }

    /** The end of a turn that failed. */
    method Fail(sess: Session, why: Cause, out: seq<Event>, ghost log: Log, ghost start: seq<Message>)
      returns (events: seq<Event>, ghost next: Log)
      requires LogOk(log, sess.id, start, sess.messages) && Resumable(sess.messages)
      modifies sess`status, outside`troubles, outside`offered, outside`stored
      ensures outside.offered == old(outside.offered) + [sess.Rec()]
      ensures outside.troubles == old(outside.troubles) && Adds(old(outside.stored), log.saved, outside.stored, next.saved)
      ensures LogOk(next, sess.id, start, sess.messages) && next.asked == log.asked
      ensures next.used == log.used && next.offered == Some(sess.Rec())
      ensures sess.status == "failed" && events == out + [Failed(why)]
    {
      sess.status := "failed";
      var ok;
      ok, next := Save(sess, true, log, start);
      events := out + [Failed(why)];
    }

    /** The end of a turn whose last message asks for nothing. */
    method Complete(sess: Session, out: seq<Event>, ghost log: Log, ghost start: seq<Message>) returns (events: seq<Event>, ghost next: Log)
      requires LogOk(log, sess.id, start, sess.messages) && Resumable(sess.messages)
      requires sess.messages != [] && sess.messages[|sess.messages| - 1].role == Assistant && LastCalls(sess.messages) == []
      modifies sess`status, outside`troubles, outside`offered, outside`stored
      ensures outside.offered == old(outside.offered) + [sess.Rec()]
      ensures outside.troubles == old(outside.troubles) && Adds(old(outside.stored), log.saved, outside.stored, next.saved)
      ensures LogOk(next, sess.id, start, sess.messages) && next.asked == log.asked
      ensures next.used == log.used && next.offered == Some(sess.Rec())
      ensures Kept(log, start, sess.messages) ==> Kept(next, start, sess.messages)
      ensures sess.status == "completed" && events == out + [Done(sess.messages[|sess.messages| - 1])]
    {
      sess.status := "completed";
      var ok;
      ok, next := Save(sess, true, log, start);
      events := out + [Done(sess.messages[|sess.messages| - 1])];
    }

    method Finish(sess: Session, trouble: Option<Cause>, out: seq<Event>, ghost log: Log, ghost start: seq<Message>)
      returns (events: seq<Event>, ghost next: Log)
      requires LogOk(log, sess.id, start, sess.messages) && Resumable(sess.messages)
      requires trouble.None? ==> && sess.messages != [] && sess.messages[|sess.messages| - 1].role == Assistant
                                    && LastCalls(sess.messages) == [] && Kept(log, start, sess.messages)
      modifies sess`status, outside`troubles, outside`offered, outside`stored
      ensures outside.offered == old(outside.offered) + [sess.Rec()]
      ensures outside.troubles == old(outside.troubles) && Adds(old(outside.stored), log.saved, outside.stored, next.saved)
      ensures LogOk(next, sess.id, start, sess.messages) && next.asked == log.asked
      ensures next.used == log.used && next.offered == Some(sess.Rec())
      ensures |events| == |out| + 1 && events[..|out|] == out && Ended(events[|out|], sess.status, sess.messages)
      ensures if trouble.Some? then events[|out|] == Failed(trouble.value) else sess.status == "completed"
      ensures sess.status == "completed" ==> Kept(next, start, sess.messages)
    {
      if trouble.None? {
        NoCalls(sess.messages[|sess.messages| - 1].content);
        events, next := Complete(sess, out, log, start);
      } else {
        events, next := Fail(sess, trouble.value, out, log, start);
      }
    }

    /** Answer the open calls, or ask the model. */
    method Advance(sess: Session, out: seq<Event>, ghost log: Log, ghost start: seq<Message>, ghost before: Usage)
      returns (trouble: Option<Cause>, events: seq<Event>, ghost next: Log)
      requires Resumable(sess.messages) && Going(log, sess.id, start, sess.messages, out)
      requires sess.usage == Total(before, log.used) && Kept(log, start, sess.messages)
      requires LastCalls(sess.messages) == [] ==> Open(sess.messages)
      modifies sess`messages, sess`usage, outside`troubles, outside`ran, outside`asked
      ensures Resumable(sess.messages) && Going(next, sess.id, start, sess.messages, events)
      ensures sess.usage == Total(before, next.used) && next.saved == log.saved
      ensures outside.troubles == old(outside.troubles) + (if trouble.Some? then [trouble.value] else [])
      ensures Adds(old(outside.asked), log.asked, outside.asked, next.asked)
    {
      next, trouble := log, None;
      AddsNone(outside.asked, log.asked);
      if LastCalls(sess.messages) != [] {
        events := AnswerCalls(sess, out, log, start);
      } else {
        var answered;
        answered, events, next := AskModel(sess, out, log, start);
        AddsOne(old(outside.asked), log.asked, old(sess.messages));
        assert next.used == log.used + [next.used[|log.used|]];
        TotalNext(before, log.used, next.used[|log.used|]);
        trouble := if answered then None else Some(ModelFailed);
      }
    }

    /** The same, and save. */
    method Round(sess: Session, out: seq<Event>, ghost log: Log, ghost start: seq<Message>, ghost before: Usage)
      returns (trouble: Option<Cause>, events: seq<Event>, ghost next: Log)
      requires Resumable(sess.messages) && Going(log, sess.id, start, sess.messages, out)
      requires sess.usage == Total(before, log.used) && Kept(log, start, sess.messages)
      requires LastCalls(sess.messages) == [] ==> Open(sess.messages)
      modifies sess`messages, sess`usage, outside
      ensures Resumable(sess.messages) && Going(next, sess.id, start, sess.messages, events)
      ensures sess.usage == Total(before, next.used) && (trouble.None? ==> Kept(next, start, sess.messages))
      ensures outside.troubles == old(outside.troubles) + (if trouble.Some? then [trouble.value] else [])
      ensures Adds(old(outside.asked), log.asked, outside.asked, next.asked)
      ensures Adds(old(outside.stored), log.saved, outside.stored, next.saved)
    {
      AddsNone(outside.stored, log.saved);
      trouble, events, next := Advance(sess, out, log, start, before);
      if trouble.None? {
        var saved;
        saved, next := Save(sess, false, next, start);
        trouble := if saved then None else Some(SaveFailed);
      }
    }

    /** Rounds, until the last message is an answer that asks for nothing, or there is trouble. */
    method Rounds(sess: Session, patience: nat, ghost start: seq<Message>)
      returns (trouble: Option<Cause>, events: seq<Event>, ghost log: Log)
      requires Resumable(sess.messages) && start == sess.messages
      modifies sess`messages, sess`usage, outside
      ensures Resumable(sess.messages) && Going(log, sess.id, start, sess.messages, events)
      ensures sess.usage == Total(old(sess.usage), log.used)
      ensures trouble.None? ==> sess.messages != [] && sess.messages[|sess.messages| - 1].role == Assistant
      ensures trouble.None? ==> LastCalls(sess.messages) == []
      ensures trouble.None? ==> Kept(log, start, sess.messages)
      ensures outside.troubles == old(outside.troubles) + (if trouble.Some? then [trouble.value] else [])
      ensures outside.asked == old(outside.asked) + log.asked && outside.stored == old(outside.stored) + log.saved
    {
      log, events := NOTHING, [];
      var rounds := 0;
      GoingStart(sess.id, sess.messages);
      assert outside.asked == outside.asked + [] && outside.stored == outside.stored + [];
      while true
        invariant Resumable(sess.messages) && Going(log, sess.id, start, sess.messages, events) && rounds <= patience
        invariant sess.usage == Total(old(sess.usage), log.used) && Kept(log, start, sess.messages)
        invariant outside.troubles == old(outside.troubles)
        invariant outside.asked == old(outside.asked) + log.asked && outside.stored == old(outside.stored) + log.saved
        decreases patience - rounds
      {
        var cancelled := outside.IsCancelled(rounds == patience);
        if cancelled {
          return Some(Cancelled), events, log;
        }
        if LastCalls(sess.messages) == [] && sess.messages != [] && sess.messages[|sess.messages| - 1].role == Assistant {
          return None, events, log;
        }
        ghost var g := log;
        trouble, events, log := Round(sess, events, log, start, old(sess.usage));
        AddsToAll(old(outside.asked), g.asked, outside.asked, log.asked);
        AddsToAll(old(outside.stored), g.saved, outside.stored, log.saved);
        if trouble.Some? {
          return;
        }
        rounds := rounds + 1;
      }
    }

    /** A turn. Whoever started it gives up on it after patience rounds, if not before. It fails
        exactly if it was cancelled, or the model or a save failed. In every transcript the model was
        asked about all calls are answered. */
    method Run(sess: Session, patience: nat) returns (out: seq<Event>, ghost log: Log)
      requires Resumable(sess.messages)
      modifies sess, outside
      ensures Resumable(sess.messages) && LogOk(log, sess.id, old(sess.messages), sess.messages)
      ensures sess.usage == Total(old(sess.usage), log.used)
      ensures out != [] && Reported(out[..|out| - 1]) == Some(sess.messages[|old(sess.messages)|..])
      ensures Ended(out[|out| - 1], sess.status, sess.messages) && log.offered == Some(sess.Rec())
      ensures sess.status == "completed" ==> Kept(log, old(sess.messages), sess.messages)
      ensures outside.asked == old(outside.asked) + log.asked && outside.stored == old(outside.stored) + log.saved
      ensures outside.offered != [] && outside.offered[|outside.offered| - 1] == sess.Rec()
      ensures forall i, j: nat :: 0 <= i < |log.asked| && j < |log.asked[i]| ==> Replied(log.asked[i], j)
      ensures forall i :: 0 <= i < |log.asked| && log.asked[i] != [] ==> log.asked[i][|log.asked[i]| - 1].role != Assistant
      ensures if sess.status == "completed" then outside.troubles == old(outside.troubles)
              else out[|out| - 1].Failed? && outside.troubles == old(outside.troubles) + [out[|out| - 1].why]
    {
      var trouble, events;
      trouble, events, log := Rounds(sess, patience, sess.messages);
      ghost var g := log;
      out, log := Finish(sess, trouble, events, log, old(sess.messages));
      AddsToAll(old(outside.stored), g.saved, outside.stored, log.saved);
      assert out[..|out| - 1] == events;
      AllReplied(log, sess.id, old(sess.messages), sess.messages);
    }
  }

  // ---------------------------------------------------------------- over many turns

  /** Whatever a turn saves continues what was saved before it: this is what makes appending
      refine replacing the record. */
  lemma {:induction false} TurnContinues(mem: map<string, Record<Message>>, id: string, start: seq<Message>,
                                         saved: seq<Record<Message>>, now: seq<Message>)
    requires LogOk(Log([], [], saved, None), id, start, now)
    requires id in mem ==> mem[id].messages <= start
    ensures Continuing(mem, saved)
    decreases |saved|
  {
    if saved != [] {
      var rest := saved[1..];
      assert Between(start, saved[0].messages, now);
      forall i | 0 <= i < |rest|
        ensures rest[i].id == id && Resumable(rest[i].messages) && Between(saved[0].messages, rest[i].messages, now)
      {
        assert rest[i] == saved[i + 1] && saved[0].messages <= saved[i + 1].messages;
      }
      TurnContinues(mem[id := saved[0]], id, saved[0].messages, rest, now);
    }
  }

  /** So a database that agrees with the in-memory store agrees with it after every save of a turn. */
  lemma TurnKeepsStoresAgreeing(db: Db<Message>, mem: map<string, Record<Message>>, id: string, start: seq<Message>,
                                saved: seq<Record<Message>>, now: seq<Message>, time: int)
    requires LogOk(Log([], [], saved, None), id, start, now)
    requires Agrees(db, mem) && (id in mem ==> mem[id].messages <= start)
    ensures AgreeThroughout(db, mem, saved, time)
  {
    TurnContinues(mem, id, start, saved, now);
    AppendRefinesReplace(db, mem, saved, time);
  }

  /** What the dev agent does when it is mentioned again after a turn that was cancelled between the
      model's call and its answer (agents/dev.go:124): the transcript it resumes is not balanced. */
  lemma MentionedAfterCancel(ask: Part, call: Part)
    requires call.Call?
    ensures var cancelled := [Message(User, [ask]), Message(Assistant, [call])];
            Resumable(cancelled) && !Balanced(cancelled + [Message(User, [ask])])
  {
    var user, said := Message(User, [ask]), Message(Assistant, [call]);
    MessageDue([], user);
    MessageDue([user], said);
    assert [] + [user] == [user] && [user] + [said] == [user, said];
    assert CallsIn([call]) == [call];
    UserMessageResumes([user, said], user);
  }
}
