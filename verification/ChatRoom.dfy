/** The chatroom (chatroom/chatroom.go): posting, reading, and waiting for what others post. A post
    is stored before the channel every waiter blocks on is closed and replaced, and a waiter takes
    the channel before it reads, so none blocks on a message it could have had. */
module ChatRoom {
  const INBOX: nat := 100

  /** Names are those its text mentions, in order and perhaps repeated. */
  datatype Message = Message(id: nat, room: string, author: string, names: seq<string>)

  // ---------------------------------------------------------------- reading

  predicate IsLater(m: Message, room: string, after: nat) {
    m.room == room && m.id > after
  }

  /** The messages of a room after one ID, in the order of the table. */
  function LaterIn(messages: seq<Message>, room: string, after: nat): seq<Message> {
    if messages == [] then []
    else
      var last := messages[|messages| - 1];
      LaterIn(messages[..|messages| - 1], room, after) + if IsLater(last, room, after) then [last] else []
  }

  /** IDs count up from 1 in the table. */
  predicate Numbered(messages: seq<Message>) {
    forall i :: 0 <= i < |messages| ==> messages[i].id == i + 1
  }

  lemma {:induction false} LaterExactly(messages: seq<Message>, room: string, after: nat)
    requires Numbered(messages)
    ensures var r := LaterIn(messages, room, after);
            && (forall m :: m in r <==> m in messages && IsLater(m, room, after))
            && (forall i, j :: 0 <= i < j < |r| ==> r[i].id < r[j].id)
  {
    if messages != [] {
      var init, last := messages[..|messages| - 1], messages[|messages| - 1];
      LaterExactly(init, room, after);
      assert messages == init + [last];
      var r := LaterIn(init, room, after);
      forall i | 0 <= i < |r|
        ensures r[i].id < last.id
      {
        assert r[i] in init;
      }
    }
  }

  // ---------------------------------------------------------------- announcing

  /** The members among the first n names a message mentions, except its author. */
  function Mentioned(members: map<string, seq<Message>>, m: Message, n: nat): set<string>
    requires n <= |m.names|
  {
    set name | name in m.names[..n] && name in members && name != m.author
  }

  /** Each of who gets the message once, unless its inbox is full. */
  function Given(members: map<string, seq<Message>>, m: Message, who: set<string>): map<string, seq<Message>> {
    map name | name in members :: if name in who && |members[name]| < INBOX then members[name] + [m] else members[name]
  }

  /** Every member a message mentions gets it once, unless it wrote it or its inbox is full. */
  function Announced(members: map<string, seq<Message>>, m: Message): map<string, seq<Message>> {
    Given(members, m, Mentioned(members, m, |m.names|))
  }

  lemma GivenOneMore(members: map<string, seq<Message>>, m: Message, who: set<string>, name: string)
    requires name in members && name !in who
    ensures Given(members, m, who)[name] == members[name]
    ensures Given(members, m, who + {name})
            == if |members[name]| < INBOX then Given(members, m, who)[name := members[name] + [m]] else Given(members, m, who)
  {
  }

  lemma MentionedOneMore(members: map<string, seq<Message>>, m: Message, n: nat)
    requires n < |m.names|
    ensures Mentioned(members, m, n + 1)
            == Mentioned(members, m, n) + if m.names[n] in members && m.names[n] != m.author then {m.names[n]} else {}
  {
    assert m.names[..n + 1] == m.names[..n] + [m.names[n]];
  }

  /** The inboxes once m is announced, mention by mention. */
  method Mention(members: map<string, seq<Message>>, m: Message) returns (inboxes: map<string, seq<Message>>)
    ensures inboxes == Announced(members, m)
    ensures inboxes.Keys == members.Keys
    ensures forall name :: name in members ==>
              inboxes[name] == if name in m.names && name != m.author && |members[name]| < 100 then members[name] + [m] else members[name]
  {
    inboxes := members;
    var woken: set<string> := {};
    for i := 0 to |m.names|
      invariant woken == Mentioned(members, m, i) && inboxes == Given(members, m, woken)
    {
      var name := m.names[i];
      MentionedOneMore(members, m, i);
      if name in members && name != m.author && name !in woken {
        GivenOneMore(members, m, woken, name);
        woken := woken + {name};
        if |inboxes[name]| < INBOX {
          inboxes := inboxes[name := inboxes[name] + [m]];
        }
      }
    }
  }

  class Service {
    var messages: seq<Message>
    /** How many channels have been closed; channel number changed is the one open now. */
    var changed: nat
    var members: map<string, seq<Message>>

    constructor ()
      ensures Numbered(messages) && messages == [] && changed == 0 && members == map[]
    {
      messages, changed, members := [], 0, map[];
    }

    method Join(name: string)
      modifies this`members
      ensures members == old(members)[name := []]
    {
      members := members[name := []];
    }

    /** The first half of a post: the row. */
    method Insert(room: string, author: string, names: seq<string>) returns (m: Message)
      requires Numbered(messages)
      modifies this`messages
      ensures Numbered(messages) && messages == old(messages) + [m]
      ensures m.room == room && m.author == author && m.names == names
    {
      m := Message(|messages| + 1, room, author, names);
      messages := messages + [m];
    }

    /** The second half: the waiters, and the members it mentions. */
    method Announce(m: Message)
      modifies this`changed, this`members
      ensures changed == old(changed) + 1 && members == Announced(old(members), m)
      ensures members.Keys == old(members).Keys
      ensures forall name :: name in old(members) ==>
                members[name] == if name in m.names && name != m.author && |old(members)[name]| < 100
                                 then old(members)[name] + [m] else old(members)[name]
    {
      changed := changed + 1;
      members := Mention(members, m);
    }

    method Read(room: string, after: nat) returns (r: seq<Message>)
      ensures r == LaterIn(messages, room, after)
    {
      r := [];
      for i := 0 to |messages|
        invariant r == LaterIn(messages[..i], room, after)
      {
        assert messages[..i + 1][..i] == messages[..i];
        if IsLater(messages[i], room, after) {
          r := r + [messages[i]];
        }
      }
      assert messages[..|messages|] == messages;
    }
  }

  // ---------------------------------------------------------------- posts and waits, interleaved

  /** A call of Post: between its halves, returned, or returned with an error after the row was
      stored. A call of Wait: about to take the channel, about to read, blocked on the channel after
      a read of the first n messages found nothing, or returned. */
  datatype Call =
    | Stored(m: Message)
    | Posted(m: Message)
    | Broken(m: Message)
    | Starting(room: string, after: nat)
    | Reading(room: string, after: nat, channel: nat)
    | Blocked(room: string, after: nat, channel: nat, n: nat)
    | Returned(room: string, after: nat, n: nat, msgs: seq<Message>)
    | GaveUp

  datatype State = State(messages: seq<Message>, changed: nat, calls: seq<Call>)

  datatype Action =
    | Store(room: string, author: string, names: seq<string>)
    | Announce(call: nat)
    | Break(call: nat)
    | Start(room: string, after: nat)
    | Take(call: nat)
    | Read(call: nat)
    | Wake(call: nat)
    | GiveUp(call: nat)

  predicate Enabled(s: State, a: Action) {
    match a
    case Store(_, _, _) => true
    case Start(_, _) => true
    case Announce(i) => i < |s.calls| && s.calls[i].Stored?
    case Break(i) => i < |s.calls| && s.calls[i].Stored?
    case Take(i) => i < |s.calls| && s.calls[i].Starting?
    case Read(i) => i < |s.calls| && s.calls[i].Reading?
    case Wake(i) => i < |s.calls| && s.calls[i].Blocked? && s.calls[i].channel < s.changed
    case GiveUp(i) => i < |s.calls| && (s.calls[i].Reading? || s.calls[i].Blocked?)
  }

  /** What a call of Wait comes to when it reads. */
  function AfterRead(s: State, c: Call): Call
    requires c.Reading?
  {
    var msgs := LaterIn(s.messages, c.room, c.after);
    if msgs == [] then Blocked(c.room, c.after, c.channel, |s.messages|)
    else Returned(c.room, c.after, |s.messages|, msgs)
  }

  function Next(s: State, a: Action): State
    requires Enabled(s, a)
  {
    match a
    case Store(room, author, names) =>
      var m := Message(|s.messages| + 1, room, author, names);
      s.(messages := s.messages + [m], calls := s.calls + [Stored(m)])
    case Start(room, after) => s.(calls := s.calls + [Starting(room, after)])
    case Announce(i) => s.(changed := s.changed + 1, calls := s.calls[i := Posted(s.calls[i].m)])
    case Break(i) => s.(calls := s.calls[i := Broken(s.calls[i].m)])
    case Take(i) => s.(calls := s.calls[i := Reading(s.calls[i].room, s.calls[i].after, s.changed)])
    case Read(i) => s.(calls := s.calls[i := AfterRead(s, s.calls[i])])
    case Wake(i) => s.(calls := s.calls[i := Starting(s.calls[i].room, s.calls[i].after)])
    case GiveUp(i) => s.(calls := s.calls[i := GaveUp])
  }

  predicate Posts(c: Call) {
    c.Stored? || c.Posted? || c.Broken?
  }

  /** Message id is stored, and its call has not announced it: it will, or it broke. */
  ghost predicate Unannounced(s: State, id: nat) {
    exists i :: 0 <= i < |s.calls| && UnannouncedBy(s.calls[i], id)
  }

  predicate UnannouncedBy(c: Call, id: nat) {
    (c.Stored? || c.Broken?) && c.m.id == id
  }

  predicate CallOk(s: State, c: Call) {
    match c
    case Stored(m) => 1 <= m.id <= |s.messages| && s.messages[m.id - 1] == m
    case Posted(m) => 1 <= m.id <= |s.messages| && s.messages[m.id - 1] == m
    case Broken(m) => 1 <= m.id <= |s.messages| && s.messages[m.id - 1] == m
    case Reading(_, _, channel) => channel <= s.changed
    case Blocked(room, after, channel, n) => channel <= s.changed && n <= |s.messages| && LaterIn(s.messages[..n], room, after) == []
    case Returned(room, after, n, msgs) => n <= |s.messages| && msgs != [] && msgs == LaterIn(s.messages[..n], room, after)
    case _ => true
  }

  /** What a blocked call has not read is not announced yet, if its channel is still open. */
  ghost predicate Waiting(s: State, c: Call) {
    c.Blocked? && c.channel == s.changed ==> forall id :: c.n < id <= |s.messages| ==> Unannounced(s, id)
  }

  ghost predicate Inv(s: State) {
    && Numbered(s.messages)
    && (forall i :: 0 <= i < |s.calls| ==> CallOk(s, s.calls[i]) && Waiting(s, s.calls[i]))
    && (forall i, j :: 0 <= i < j < |s.calls| && Posts(s.calls[i]) && Posts(s.calls[j]) ==> s.calls[i].m.id != s.calls[j].m.id)
  }

  predicate Init(s: State) {
    Numbered(s.messages) && s.calls == []
  }

  lemma StepOk(s: State, a: Action, i: nat)
    requires Inv(s) && Enabled(s, a) && i < |Next(s, a).calls|
    ensures CallOk(Next(s, a), Next(s, a).calls[i])
  {
    var t := Next(s, a);
    if i < |s.calls| && t.calls[i] == s.calls[i] {
      assert CallOk(s, s.calls[i]);
      if s.calls[i].Blocked? || s.calls[i].Returned? {
        assert t.messages[..s.calls[i].n] == s.messages[..s.calls[i].n];
      }
    } else if a.Read? {
      assert s.messages[..|s.messages|] == s.messages;
    } else if a.Announce? || a.Break? {
      assert CallOk(s, s.calls[i]);
    }
  }

  /** No step but the one that closes the channel announces a message. */
  lemma StepUnannounced(s: State, a: Action, id: nat)
    requires Inv(s) && Enabled(s, a) && !a.Announce?
    requires Unannounced(s, id) || (a.Store? && id == |s.messages| + 1)
    ensures Unannounced(Next(s, a), id)
  {
    var t := Next(s, a);
    if Unannounced(s, id) {
      var i :| 0 <= i < |s.calls| && UnannouncedBy(s.calls[i], id);
      assert UnannouncedBy(t.calls[i], id);
    } else {
      assert UnannouncedBy(t.calls[|s.calls|], id);
    }
  }

  lemma StepWaiting(s: State, a: Action, i: nat)
    requires Inv(s) && Enabled(s, a) && i < |Next(s, a).calls|
    ensures Waiting(Next(s, a), Next(s, a).calls[i])
  {
    var t := Next(s, a);
    StepOk(s, a, i);
    if i < |s.calls| {
      assert CallOk(s, s.calls[i]) && Waiting(s, s.calls[i]);
    }
    if t.calls[i].Blocked? && t.calls[i].channel == t.changed && !a.Announce? && !(a.Read? && a.call == i) {
      forall id | t.calls[i].n < id <= |t.messages|
        ensures Unannounced(t, id)
      {
        StepUnannounced(s, a, id);
      }
    }
  }

  lemma StepKeeps(s: State, a: Action)
    requires Inv(s) && Enabled(s, a)
    ensures Inv(Next(s, a))
  {
    var t := Next(s, a);
    forall i | 0 <= i < |t.calls|
      ensures CallOk(t, t.calls[i]) && Waiting(t, t.calls[i])
    {
      StepOk(s, a, i);
      StepWaiting(s, a, i);
    }
    forall i | 0 <= i < |s.calls| && Posts(s.calls[i])
      ensures s.calls[i].m.id <= |s.messages|
    {
      assert CallOk(s, s.calls[i]);
    }
  }

  predicate IsRun(run: seq<State>, acts: seq<Action>) {
    && |run| == |acts| + 1 && Init(run[0])
    && forall i :: 0 <= i < |acts| ==> Enabled(run[i], acts[i]) && run[i + 1] == Next(run[i], acts[i])
  }

  lemma {:induction false} RunKeeps(run: seq<State>, acts: seq<Action>, i: nat)
    requires IsRun(run, acts) && i < |run|
    ensures Inv(run[i])
  {
    if i > 0 {
      RunKeeps(run, acts, i - 1);
      StepKeeps(run[i - 1], acts[i - 1]);
    }
  }

  lemma PostedAnnounced(s: State, post: nat)
    requires Inv(s) && post < |s.calls| && s.calls[post].Posted?
    ensures !Unannounced(s, s.calls[post].m.id)
  {
    forall i | 0 <= i < |s.calls|
      ensures !UnannouncedBy(s.calls[i], s.calls[post].m.id)
    {
      assert i < post || i > post || i == post;
    }
  }

  /** What a blocked wait has not returned came after its read. */
  lemma NotRead(s: State, w: Call, m: Message)
    requires Numbered(s.messages) && w.Blocked? && CallOk(s, w) && m in s.messages && IsLater(m, w.room, w.after)
    ensures w.n < m.id <= |s.messages| && s.messages[m.id - 1] == m
  {
    var k :| 0 <= k < |s.messages| && s.messages[k] == m;
    LaterExactly(s.messages[..w.n], w.room, w.after);
    forall i | 0 <= i < w.n
      ensures s.messages[i] != m
    {
      assert s.messages[..w.n][i] == s.messages[i];
    }
  }

  lemma NotStuck(s: State, wait: nat, post: nat)
    requires Inv(s) && wait < |s.calls| && post < |s.calls| && s.calls[wait].Blocked? && s.calls[post].Posted?
    requires IsLater(s.calls[post].m, s.calls[wait].room, s.calls[wait].after)
    ensures Enabled(s, Wake(wait))
  {
    var w, m := s.calls[wait], s.calls[post].m;
    assert CallOk(s, w) && CallOk(s, s.calls[post]) && Waiting(s, w);
    assert m in s.messages;
    NotRead(s, w, m);
    PostedAnnounced(s, post);
  }

  /** A call is the one that a made: a Wait for what its room has after its ID, until it gives up, or a
      Post of its message. */
  predicate MadeBy(c: Call, a: Action) {
    match a
    case Start(room, after) => c.GaveUp? || (!Posts(c) && c.room == room && c.after == after)
    case Store(room, author, names) => Posts(c) && c.m.room == room && c.m.author == author && c.m.names == names
    case _ => false
  }

  lemma StepMade(s: State, a: Action, call: nat, origin: Action)
    requires Enabled(s, a) && call < |s.calls| && MadeBy(s.calls[call], origin)
    ensures call < |Next(s, a).calls| && MadeBy(Next(s, a).calls[call], origin)
  {
  }

  /** What was called stays what it was called for. */
  lemma {:induction false} CallStays(run: seq<State>, acts: seq<Action>, k: nat, i: nat)
    requires IsRun(run, acts) && k < |acts| && (acts[k].Start? || acts[k].Store?) && k < i < |run|
    ensures |run[k].calls| < |run[i].calls| && MadeBy(run[i].calls[|run[k].calls|], acts[k])
  {
    if k + 1 < i {
      CallStays(run, acts, k, i - 1);
      StepMade(run[i - 1], acts[i - 1], |run[k].calls|, acts[k]);
    }
  }

  /** The reads of a Wait are of what the room had when it was called, at least. */
  predicate ReadSince(c: Call, n: nat) {
    (c.Blocked? || c.Returned?) ==> n <= c.n
  }

  lemma {:induction false} ReadsAreNew(run: seq<State>, acts: seq<Action>, k: nat, i: nat)
    requires IsRun(run, acts) && k < |acts| && acts[k].Start? && k < i < |run|
    ensures |run[k].messages| <= |run[i].messages|
    ensures |run[k].calls| < |run[i].calls| && ReadSince(run[i].calls[|run[k].calls|], |run[k].messages|)
  {
    if k + 1 < i {
      ReadsAreNew(run, acts, k, i - 1);
    }
  }

  /** No wakeup is lost: once a post into its room has returned, no call of Wait is blocked on an
      open channel; and what a call returned is all its room had, after the ID it was called with, when
      it read, in order, and something: at the least what was there when it was called. */
  lemma NoLostWakeup(run: seq<State>, acts: seq<Action>, k: nat, i: nat, post: nat)
    requires IsRun(run, acts) && k < |acts| && acts[k].Start? && k < i < |run| && post < |run[i].calls|
    ensures |run[k].calls| < |run[i].calls|
    ensures var w, p := run[i].calls[|run[k].calls|], run[i].calls[post];
            w.Blocked? && p.Posted? && p.m.room == acts[k].room && p.m.id > acts[k].after ==>
              Enabled(run[i], Wake(|run[k].calls|))
    ensures var w := run[i].calls[|run[k].calls|];
            w.Returned? ==>
              && |run[k].messages| <= w.n <= |run[i].messages| && w.msgs != []
              && (forall m :: m in w.msgs <==> m in run[i].messages[..w.n] && m.room == acts[k].room && m.id > acts[k].after)
              && (forall x, y :: 0 <= x < y < |w.msgs| ==> w.msgs[x].id < w.msgs[y].id)
  {
    CallStays(run, acts, k, i);
    ReadsAreNew(run, acts, k, i);
    RunKeeps(run, acts, i);
    var s, wait := run[i], |run[k].calls|;
    var w, p := s.calls[wait], s.calls[post];
    assert CallOk(s, w);
    if w.Blocked? && p.Posted? && IsLater(p.m, w.room, w.after) {
      NotStuck(s, wait, post);
    }
    if w.Returned? {
      LaterExactly(s.messages[..w.n], w.room, w.after);
    }
  }

  /** A call that finds more in its room takes the channel, reads, and returns it without blocking. */
  lemma FoundReturns(s: State, wait: nat, m: Message)
    requires Numbered(s.messages) && wait < |s.calls| && s.calls[wait].Starting?
    requires m in s.messages && IsLater(m, s.calls[wait].room, s.calls[wait].after)
    ensures Enabled(s, Take(wait)) && Enabled(Next(s, Take(wait)), Read(wait))
    ensures var v := Next(Next(s, Take(wait)), Read(wait));
            v.calls[wait].Returned? && m in v.calls[wait].msgs && v.messages == s.messages && v.changed == s.changed
  {
    LaterExactly(s.messages, s.calls[wait].room, s.calls[wait].after);
  }

  /** A call that is woken when its room has more, and left to itself, returns it. */
  lemma WokenReturns(s: State, wait: nat, m: Message)
    requires Inv(s) && Enabled(s, Wake(wait)) && m in s.messages && IsLater(m, s.calls[wait].room, s.calls[wait].after)
    ensures var t := Next(s, Wake(wait));
            var u := Next(t, Take(wait));
            var v := Next(u, Read(wait));
            v.calls[wait].Returned? && m in v.calls[wait].msgs
  {
    LaterExactly(s.messages, s.calls[wait].room, s.calls[wait].after);
  }

  lemma Then(run: seq<State>, acts: seq<Action>, a: Action) returns (run1: seq<State>, acts1: seq<Action>)
    requires IsRun(run, acts) && Enabled(run[|acts|], a)
    ensures run1 == run + [Next(run[|acts|], a)] && acts1 == acts + [a] && IsRun(run1, acts1)
  {
    run1, acts1 := run + [Next(run[|acts|], a)], acts + [a];
  }

  lemma SomeoneBlocks(room: string) returns (run: seq<State>, acts: seq<Action>)
    ensures IsRun(run, acts) && run[|acts|] == State([], 0, [Blocked(room, 0, 0, 0)])
  {
    run, acts := Then([State([], 0, [])], [], Start(room, 0));
    run, acts := Then(run, acts, Take(0));
    run, acts := Then(run, acts, Read(0));
    assert run[3].calls == [Blocked(room, 0, 0, 0)];
  }

  /** Something a wait is blocked on although its room has it already. */
  ghost predicate Has(messages: seq<Message>, room: string, after: nat) {
    exists m :: m in messages && IsLater(m, room, after)
  }

  /** A post into the room is between its halves, or broke there. */
  ghost predicate HalfPosted(calls: seq<Call>, room: string, after: nat) {
    exists j :: 0 <= j < |calls| && (calls[j].Stored? || calls[j].Broken?) && IsLater(calls[j].m, room, after)
  }

  /** Exactly when a wait is blocked on an open channel although its room has more: a post stored its
      row and has not announced it yet, or never will. */
  lemma BlockedIff(run: seq<State>, acts: seq<Action>, i: nat, wait: nat)
    requires IsRun(run, acts) && i < |run| && wait < |run[i].calls|
    requires run[i].calls[wait].Blocked? && !Enabled(run[i], Wake(wait))
    ensures var w := run[i].calls[wait];
            Has(run[i].messages, w.room, w.after) <==> HalfPosted(run[i].calls, w.room, w.after)
  {
    RunKeeps(run, acts, i);
    var s := run[i];
    var w := s.calls[wait];
    assert CallOk(s, w) && Waiting(s, w);
    if Has(s.messages, w.room, w.after) {
      var m :| m in s.messages && IsLater(m, w.room, w.after);
      NotRead(s, w, m);
      assert Unannounced(s, m.id);
      var j :| 0 <= j < |s.calls| && UnannouncedBy(s.calls[j], m.id);
      assert CallOk(s, s.calls[j]);
    }
    if HalfPosted(s.calls, w.room, w.after) {
      var j :| 0 <= j < |s.calls| && (s.calls[j].Stored? || s.calls[j].Broken?) && IsLater(s.calls[j].m, w.room, w.after);
      assert CallOk(s, s.calls[j]);
      assert s.calls[j].m in s.messages;
    }
  }

  /** A post that stored its row and then failed (chatroom/chatroom.go:107) wakes nobody: its
      message can lie there with a waiter for it blocked on an open channel. */
  lemma BrokenPostWakesNobody(room: string, author: string)
    ensures exists run, acts :: && IsRun(run, acts)
                                && var s: State := run[|acts|];
                                   && |s.calls| == 2 && s.calls[0].Blocked? && s.calls[1].Broken?
                                   && IsLater(s.calls[1].m, s.calls[0].room, s.calls[0].after) && !Enabled(s, Wake(0))
  {
    var run, acts := SomeoneBlocks(room);
    run, acts := Then(run, acts, Store(room, author, []));
    run, acts := Then(run, acts, Break(1));
    assert run[|acts|].calls == [Blocked(room, 0, 0, 0), Broken(Message(1, room, author, []))];
  }
}
