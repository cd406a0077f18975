/** Mail out of rooms (chatroom/mail.go:47-72): what was mailed to the laptop, against how far the
    rooms were passed. */
module RelayMailing {
  import opened Wrappers
  import opened RelayPosting

  function Ids(sent: seq<nat>): set<nat> {
    set i | i in sent
  }

  /** The messages mailed that a saved seen cursor has passed. */
  function Settled(sent: seq<nat>, seen: Option<nat>): set<nat> {
    set i | i in sent && seen.Some? && i <= seen.value
  }

  /** An agent's message in a registered room. */
  predicate Relevant(msgs: seq<Chat>, rooms: set<string>, members: set<string>, id: nat) {
    1 <= id <= |msgs| && msgs[id - 1].room in rooms && msgs[id - 1].author in members
  }

  lemma SubsetSize(a: set<nat>, b: set<nat>)
    requires a <= b
    ensures |a| <= |b|
  {
    assert b == a + (b - a);
  }

  lemma {:induction false} IdsSize(sent: seq<nat>)
    ensures |Ids(sent)| <= |sent|
  {
    if sent != [] {
      var init, last := sent[..|sent| - 1], sent[|sent| - 1];
      IdsSize(init);
      assert Ids(sent) == Ids(init) + {last};
    }
  }

  /** Passing one more message that was mailed settles one more. */
  lemma SettledMore(sent: seq<nat>, seen: Option<nat>, n: nat)
    requires seen.Some? ==> seen.value <= n
    ensures |Settled(sent, seen)| <= |Settled(sent, Some(n))|
    ensures n in sent && (seen.Some? ==> seen.value < n) ==> |Settled(sent, seen)| + 1 <= |Settled(sent, Some(n))|
  {
    SubsetSize(Settled(sent, seen), Settled(sent, Some(n)));
    if n in sent && (seen.Some? ==> seen.value < n) {
      SubsetSize(Settled(sent, seen) + {n}, Settled(sent, Some(n)));
    }
  }

  lemma SettledAppend(sent: seq<nat>, seen: Option<nat>, x: nat)
    ensures |Settled(sent, seen)| <= |Settled(sent + [x], seen)|
  {
    SubsetSize(Settled(sent, seen), Settled(sent + [x], seen));
  }

  /** IDs of the messages after seen in registered rooms, in order: the query of the pass. */
  function Query(msgs: seq<Chat>, rooms: set<string>, seen: nat, top: nat): (ids: seq<nat>)
    requires top <= |msgs|
    ensures forall i :: 0 <= i < |ids| ==> seen < ids[i] <= top && msgs[ids[i] - 1].room in rooms
    ensures forall i, j :: 0 <= i < j < |ids| ==> ids[i] < ids[j]
    ensures forall id :: seen < id <= top && msgs[id - 1].room in rooms ==> id in ids
  {
    if top <= seen then []
    else
      var before := Query(msgs, rooms, seen, top - 1);
      if msgs[top - 1].room in rooms then before + [top] else before
  }

  /** No agent's message in a registered room lies strictly between lo and hi. */
  ghost predicate Clear(msgs: seq<Chat>, rooms: set<string>, members: set<string>, lo: nat, hi: nat) {
    forall id :: lo < id < hi ==> !Relevant(msgs, rooms, members, id)
  }

  lemma ClearGrow(before: seq<Chat>, after: seq<Chat>, rooms: set<string>, members: set<string>, lo: nat, hi: nat)
    requires before <= after && hi <= |before| + 1 && Clear(before, rooms, members, lo, hi)
    ensures Clear(after, rooms, members, lo, hi)
  {
    forall id | lo < id < hi
      ensures !Relevant(after, rooms, members, id)
    {
      assert !Relevant(before, rooms, members, id);
      assert after[id - 1] == before[id - 1];
    }
  }

  function Last(ids: seq<nat>, start: nat, k: nat): nat
    requires k <= |ids|
  {
    if k == 0 then start else ids[k - 1]
  }

  /** From start through the IDs in order, nothing to mail is left out. */
  ghost predicate Spaced(msgs: seq<Chat>, rooms: set<string>, members: set<string>, ids: seq<nat>, start: nat) {
    forall k :: 0 <= k < |ids| ==> SpacedAt(msgs, rooms, members, ids, start, k)
  }

  ghost predicate SpacedAt(msgs: seq<Chat>, rooms: set<string>, members: set<string>, ids: seq<nat>, start: nat, k: nat)
    requires k < |ids|
  {
    && Last(ids, start, k) < ids[k] <= |msgs| && msgs[ids[k] - 1].room in rooms
    && Clear(msgs, rooms, members, Last(ids, start, k), ids[k])
  }

  lemma SpacedGrow(before: seq<Chat>, after: seq<Chat>, rooms: set<string>, members: set<string>, ids: seq<nat>, start: nat)
    requires before <= after && Spaced(before, rooms, members, ids, start)
    ensures Spaced(after, rooms, members, ids, start)
  {
    forall k | 0 <= k < |ids|
      ensures SpacedAt(after, rooms, members, ids, start, k)
    {
      assert SpacedAt(before, rooms, members, ids, start, k);
      ClearGrow(before, after, rooms, members, Last(ids, start, k), ids[k]);
    }
  }

  lemma QuerySpaced(msgs: seq<Chat>, rooms: set<string>, members: set<string>, start: nat)
    ensures Spaced(msgs, rooms, members, Query(msgs, rooms, start, |msgs|), start)
  {
    var ids := Query(msgs, rooms, start, |msgs|);
    forall k | 0 <= k < |ids|
      ensures SpacedAt(msgs, rooms, members, ids, start, k)
    {
      forall id | Last(ids, start, k) < id < ids[k]
        ensures !Relevant(msgs, rooms, members, id)
      {
        if Relevant(msgs, rooms, members, id) {
          QueryGap(msgs, rooms, start, k, id);
        }
      }
    }
  }

  /** What lies between two neighbours of the query is in no registered room. */
  lemma QueryGap(msgs: seq<Chat>, rooms: set<string>, start: nat, k: nat, id: nat)
    requires k < |Query(msgs, rooms, start, |msgs|)|
    requires Last(Query(msgs, rooms, start, |msgs|), start, k) < id < Query(msgs, rooms, start, |msgs|)[k]
    ensures 1 <= id <= |msgs| && msgs[id - 1].room !in rooms
  {
    var ids := Query(msgs, rooms, start, |msgs|);
    if k > 0 {
      assert start < ids[k - 1];
    }
    assert id !in ids by {
      forall i | 0 <= i < |ids|
        ensures ids[i] != id
      {
        assert i < k ==> ids[i] <= ids[k - 1];
      }
    }
  }

  // ---------------------------------------------------------------- the history

  /** The messages mailed; where the saved seen cursor stood when each room was registered, 0 if
      nothing was saved; where the pass that first saved it began; and, once a room was registered
      under a mail that was not passed yet, a message of it that has to come after that mail. */
  datatype Mailed = Mailed(sent: seq<nat>, since: map<string, nat>, base: nat, late: Option<Overtaken>)

  /** Message id has to be mailed although sent[at], a later message, was mailed before. */
  datatype Overtaken = Overtaken(id: nat, at: nat)

  function Floor(seen: Option<nat>): nat {
    if seen.Some? then seen.value else 0
  }

  /** An agent's message that came after its room was registered, and after the relay first looked. */
  predicate Owed(msgs: seq<Chat>, members: set<string>, h: Mailed, id: nat) {
    Relevant(msgs, h.since.Keys, members, id) && h.since[msgs[id - 1].room] < id && h.base < id
  }

  predicate SentAs(msgs: seq<Chat>, mail: Chat, members: set<string>, h: Mailed, id: nat) {
    Relevant(msgs, h.since.Keys, members, id) && h.since[msgs[id - 1].room] < id && mail == msgs[id - 1]
  }

  /** Mailed once each, in the order of the rooms, and all of it passed. */
  ghost predicate Prompt(h: Mailed, seen: Option<nat>) {
    && (forall i, j :: 0 <= i < j < |h.sent| ==> h.sent[i] < h.sent[j])
    && (forall i :: 0 <= i < |h.sent| ==> seen.Some? && h.base < h.sent[i] <= seen.value)
  }

  ghost predicate Increasing(s: seq<nat>) {
    forall i, j :: 0 <= i < j < |s| ==> s[i] < s[j]
  }

  /** What was mailed but not passed is the mail sent last, and nothing has to come before it. */
  ghost predicate LastOnly(msgs: seq<Chat>, members: set<string>, h: Mailed, seen: nat) {
    forall i :: 0 <= i < |h.sent| ==> LastAt(msgs, members, h.since.Keys, h.sent, seen, i)
  }

  ghost predicate LastAt(msgs: seq<Chat>, members: set<string>, rooms: set<string>, sent: seq<nat>, seen: nat, i: nat)
    requires i < |sent|
  {
    seen < sent[i] ==> sent[i] == sent[|sent| - 1] && Clear(msgs, rooms, members, seen, sent[i])
  }

  /** No room was registered under a mail: repeats are immediate, and else the order is kept. */
  ghost predicate Tidy(msgs: seq<Chat>, members: set<string>, h: Mailed, seen: Option<nat>) {
    Increasing(Collapse(h.sent)) && (seen.Some? ==> LastOnly(msgs, members, h, seen.value))
  }

  /** The message overtaken comes after the mail that overtook it, if it was mailed, or has still to
      be mailed. */
  ghost predicate Untidy(msgs: seq<Chat>, members: set<string>, h: Mailed, seen: Option<nat>, late: Overtaken) {
    && late.at < |h.sent| && late.id < h.sent[late.at] && late.id !in h.sent[..late.at + 1]
    && (late.id in h.sent || (seen.Some? && seen.value < late.id && Relevant(msgs, h.since.Keys, members, late.id)))
  }

  ghost predicate Orderly(msgs: seq<Chat>, members: set<string>, h: Mailed, seen: Option<nat>) {
    match h.late
    case None => Tidy(msgs, members, h, seen)
    case Some(late) => Untidy(msgs, members, h, seen, late)
  }

  /** Each mail sent is an agent's message that came after its room was registered; no message owed
      is behind the saved cursor without having been sent. */
  ghost predicate OutOk(msgs: seq<Chat>, members: set<string>, outbox: seq<Chat>, seen: Option<nat>, h: Mailed) {
    && |h.sent| == |outbox| && Floor(seen) <= |msgs| && (seen.Some? ==> h.base <= seen.value)
    && (forall i {:trigger SentAs(msgs, outbox[i], members, h, h.sent[i])} ::
          0 <= i < |outbox| ==> SentAs(msgs, outbox[i], members, h, h.sent[i]))
    && (forall room :: room in h.since ==> h.since[room] <= Floor(seen))
    && (forall id: nat :: Owed(msgs, members, h, id) && id <= Floor(seen) ==> id in h.sent)
    && Orderly(msgs, members, h, seen)
  }

  // ---------------------------------------------------------------- others post

  lemma RelevantGrow(before: seq<Chat>, after: seq<Chat>, rooms: set<string>, members: set<string>, id: nat)
    requires before <= after && id <= |before|
    ensures Relevant(after, rooms, members, id) == Relevant(before, rooms, members, id)
  {
    if 1 <= id {
      assert after[id - 1] == before[id - 1];
    }
  }

  lemma OutGrow(msgs: seq<Chat>, more: seq<Chat>, members: set<string>, outbox: seq<Chat>, seen: Option<nat>, h: Mailed)
    requires OutOk(msgs, members, outbox, seen, h)
    ensures OutOk(msgs + more, members, outbox, seen, h)
  {
    forall i | 0 <= i < |outbox|
      ensures SentAs(msgs + more, outbox[i], members, h, h.sent[i])
    {
      assert SentAs(msgs, outbox[i], members, h, h.sent[i]);
    }
    forall id: nat | Owed(msgs + more, members, h, id) && id <= Floor(seen)
      ensures id in h.sent
    {
      RelevantGrow(msgs, msgs + more, h.since.Keys, members, id);
      assert Owed(msgs, members, h, id);
    }
    OrderlyGrow(msgs, more, members, outbox, seen, h);
  }

  lemma OrderlyGrow(msgs: seq<Chat>, more: seq<Chat>, members: set<string>, outbox: seq<Chat>, seen: Option<nat>, h: Mailed)
    requires OutOk(msgs, members, outbox, seen, h)
    ensures Orderly(msgs + more, members, h, seen)
  {
    if h.late.None? && seen.Some? {
      forall i | 0 <= i < |h.sent|
        ensures LastAt(msgs + more, members, h.since.Keys, h.sent, seen.value, i)
      {
        assert LastAt(msgs, members, h.since.Keys, h.sent, seen.value, i);
        assert SentAs(msgs, outbox[i], members, h, h.sent[i]);
        if seen.value < h.sent[i] {
          ClearGrow(msgs, msgs + more, h.since.Keys, members, seen.value, h.sent[i]);
        }
      }
    } else if h.late.Some? && h.late.value.id !in h.sent {
      RelevantGrow(msgs, msgs + more, h.since.Keys, members, h.late.value.id);
    }
  }

  // ---------------------------------------------------------------- a room is registered

  /** A message of room that has to come after sent[late.at], a later message mailed before it. */
  predicate Overtakes(msgs: seq<Chat>, members: set<string>, sent: seq<nat>, seen: Option<nat>, room: string, late: Overtaken) {
    && seen.Some? && seen.value < late.id <= |msgs| && late.at < |sent| && late.id < sent[late.at]
    && msgs[late.id - 1].room == room && msgs[late.id - 1].author in members
  }

  /** late is what registering room brings about. */
  ghost predicate LateFor(msgs: seq<Chat>, members: set<string>, h: Mailed, seen: Option<nat>, room: string, late: Option<Overtaken>) {
    if h.late.Some? then late == h.late
    else if late.Some? then Overtakes(msgs, members, h.sent, seen, room, late.value)
    else forall o :: !Overtakes(msgs, members, h.sent, seen, room, o)
  }

  function WithRoom(h: Mailed, seen: Option<nat>, room: string, late: Option<Overtaken>): Mailed {
    h.(since := h.since[room := Floor(seen)], late := late)
  }

  lemma OutRegister(msgs: seq<Chat>, members: set<string>, outbox: seq<Chat>, seen: Option<nat>, h: Mailed,
                    room: string, late: Option<Overtaken>)
    requires OutOk(msgs, members, outbox, seen, h) && room !in h.since && LateFor(msgs, members, h, seen, room, late)
    ensures OutOk(msgs, members, outbox, seen, WithRoom(h, seen, room, late))
  {
    var g := WithRoom(h, seen, room, late);
    forall i | 0 <= i < |outbox|
      ensures SentAs(msgs, outbox[i], members, g, g.sent[i])
    {
      assert SentAs(msgs, outbox[i], members, h, h.sent[i]);
    }
    forall id: nat | Owed(msgs, members, g, id) && id <= Floor(seen)
      ensures id in g.sent
    {
      assert Owed(msgs, members, h, id);
    }
    OrderlyRegister(msgs, members, outbox, seen, h, room, late);
  }

  lemma OrderlyRegister(msgs: seq<Chat>, members: set<string>, outbox: seq<Chat>, seen: Option<nat>, h: Mailed,
                        room: string, late: Option<Overtaken>)
    requires OutOk(msgs, members, outbox, seen, h) && room !in h.since && LateFor(msgs, members, h, seen, room, late)
    ensures Orderly(msgs, members, WithRoom(h, seen, room, late), seen)
  {
    if late.None? && seen.Some? {
      assert WithRoom(h, seen, room, late).since.Keys == h.since.Keys + {room};
      forall i | 0 <= i < |h.sent|
        ensures LastAt(msgs, members, h.since.Keys + {room}, h.sent, seen.value, i)
      {
        assert LastAt(msgs, members, h.since.Keys, h.sent, seen.value, i);
        if seen.value < h.sent[i] {
          ClearRegister(msgs, members, outbox, seen, h, room, i);
        }
      }
    } else if late.Some? && h.late.None? {
      forall i | 0 <= i < |h.sent|
        ensures h.sent[i] != late.value.id
      {
        assert SentAs(msgs, outbox[i], members, h, h.sent[i]);
      }
    }
  }

  lemma ClearRegister(msgs: seq<Chat>, members: set<string>, outbox: seq<Chat>, seen: Option<nat>, h: Mailed, room: string, i: nat)
    requires OutOk(msgs, members, outbox, seen, h) && LateFor(msgs, members, h, seen, room, None) && h.late.None?
    requires seen.Some? && i < |h.sent| && seen.value < h.sent[i]
    ensures Clear(msgs, h.since.Keys + {room}, members, seen.value, h.sent[i])
  {
    assert LastAt(msgs, members, h.since.Keys, h.sent, seen.value, i);
    assert SentAs(msgs, outbox[i], members, h, h.sent[i]);
    forall id | seen.value < id < h.sent[i]
      ensures !Relevant(msgs, h.since.Keys + {room}, members, id)
    {
      assert !Relevant(msgs, h.since.Keys, members, id);
      assert !Overtakes(msgs, members, h.sent, seen, room, Overtaken(id, i));
    }
  }

  /** What registering rooms makes of the history: each new room counts from where the cursor stands,
      and the order is lost exactly when one of them has an agent's message that was overtaken. */
  ghost predicate Rooms(msgs: seq<Chat>, members: set<string>, seen: Option<nat>, before: Mailed, after: Mailed) {
    && before.since.Keys <= after.since.Keys
    && (forall room :: room in after.since ==>
          after.since[room] == if room in before.since then before.since[room] else Floor(seen))
    && (if before.late.Some? then after.late == before.late
        else if after.late.Some? then
          exists room :: room in after.since && room !in before.since && Overtakes(msgs, members, before.sent, seen, room, after.late.value)
        else
          forall room, o :: room in after.since && room !in before.since ==> !Overtakes(msgs, members, before.sent, seen, room, o))
  }

  /** Posts that come later cannot be overtaken by what was mailed before. */
  lemma OvertakesGrow(before: seq<Chat>, after: seq<Chat>, members: set<string>, sent: seq<nat>, seen: Option<nat>,
                      room: string, o: Overtaken)
    requires before <= after && forall i :: 0 <= i < |sent| ==> sent[i] <= |before|
    ensures Overtakes(after, members, sent, seen, room, o) == Overtakes(before, members, sent, seen, room, o)
  {
    if seen.Some? && seen.value < o.id <= |before| {
      assert after[o.id - 1] == before[o.id - 1];
    }
  }

  lemma RoomsGrow(before: seq<Chat>, after: seq<Chat>, members: set<string>, seen: Option<nat>, g: Mailed, h: Mailed)
    requires before <= after && (forall i :: 0 <= i < |g.sent| ==> g.sent[i] <= |before|) && Rooms(before, members, seen, g, h)
    ensures Rooms(after, members, seen, g, h)
  {
    forall room, o
      ensures Overtakes(after, members, g.sent, seen, room, o) == Overtakes(before, members, g.sent, seen, room, o)
    {
      OvertakesGrow(before, after, members, g.sent, seen, room, o);
    }
  }

  lemma RoomsThen(msgs: seq<Chat>, members: set<string>, seen: Option<nat>, f: Mailed, g: Mailed, h: Mailed)
    requires Rooms(msgs, members, seen, f, g) && Rooms(msgs, members, seen, g, h) && f.sent == g.sent
    ensures Rooms(msgs, members, seen, f, h)
  {
    if f.late.None? && g.late.Some? {
      var room :| room in g.since && room !in f.since && Overtakes(msgs, members, f.sent, seen, room, g.late.value);
    } else if f.late.None? && h.late.Some? {
      var room :| room in h.since && room !in g.since && Overtakes(msgs, members, g.sent, seen, room, h.late.value);
    }
  }

  lemma SentBelow(msgs: seq<Chat>, members: set<string>, outbox: seq<Chat>, seen: Option<nat>, h: Mailed)
    requires OutOk(msgs, members, outbox, seen, h)
    ensures forall i :: 0 <= i < |h.sent| ==> h.sent[i] <= |msgs|
  {
    forall i | 0 <= i < |h.sent|
      ensures h.sent[i] <= |msgs|
    {
      assert SentAs(msgs, outbox[i], members, h, h.sent[i]);
    }
  }

  // ---------------------------------------------------------------- a message is mailed

  function WithSent(h: Mailed, id: nat): Mailed {
    h.(sent := h.sent + [id])
  }

  /** The pass stands at last: at the cursor, or, before there is one, past all that was mailed. */
  ghost predicate Stands(seen: Option<nat>, h: Mailed, last: nat) {
    if seen.Some? then seen.value == last else forall i :: 0 <= i < |h.sent| ==> h.sent[i] <= last
  }

  /** A pass begins at the cursor, or where the rooms end. */
  lemma StandsAtStart(msgs: seq<Chat>, members: set<string>, outbox: seq<Chat>, seen: Option<nat>, h: Mailed)
    requires OutOk(msgs, members, outbox, seen, h)
    ensures Stands(seen, h, if seen.Some? then seen.value else |msgs|)
  {
    SentBelow(msgs, members, outbox, seen, h);
  }

  /** id is the next message the pass has to deal with. */
  ghost predicate ToDeal(msgs: seq<Chat>, members: set<string>, seen: Option<nat>, h: Mailed, last: nat, id: nat) {
    && last < id <= |msgs| && Clear(msgs, h.since.Keys, members, last, id)
    && msgs[id - 1].room in h.since && Stands(seen, h, last)
  }

  /** And an agent wrote it. */
  ghost predicate NextToMail(msgs: seq<Chat>, members: set<string>, seen: Option<nat>, h: Mailed, last: nat, id: nat) {
    ToDeal(msgs, members, seen, h, last, id) && msgs[id - 1].author in members
  }

  lemma NextGrow(before: seq<Chat>, after: seq<Chat>, members: set<string>, seen: Option<nat>, h: Mailed, last: nat, id: nat)
    requires before <= after && NextToMail(before, members, seen, h, last, id)
    ensures NextToMail(after, members, seen, h, last, id)
  {
    ClearGrow(before, after, h.since.Keys, members, last, id);
    assert after[id - 1] == before[id - 1];
  }

  lemma OutSent(msgs: seq<Chat>, members: set<string>, outbox: seq<Chat>, seen: Option<nat>, h: Mailed, last: nat, id: nat)
    requires OutOk(msgs, members, outbox, seen, h) && NextToMail(msgs, members, seen, h, last, id)
    ensures OutOk(msgs, members, outbox + [msgs[id - 1]], seen, WithSent(h, id))
  {
    var g, mails := WithSent(h, id), outbox + [msgs[id - 1]];
    forall i | 0 <= i < |mails|
      ensures SentAs(msgs, mails[i], members, g, g.sent[i])
    {
      if i < |outbox| {
        assert SentAs(msgs, outbox[i], members, h, h.sent[i]);
      }
    }
    forall x: nat | Owed(msgs, members, g, x) && x <= Floor(seen)
      ensures x in g.sent
    {
      assert Owed(msgs, members, h, x);
    }
    if h.late.None? {
      TidySent(msgs, members, outbox, seen, h, last, id);
    } else {
      assert g.sent[..h.late.value.at + 1] == h.sent[..h.late.value.at + 1];
    }
  }

  lemma {:induction false} CollapseWithin(s: seq<nat>)
    ensures forall x :: x in Collapse(s) <==> x in s
  {
    if |s| > 1 {
      CollapseWithin(s[..|s| - 1]);
      assert s == s[..|s| - 1] + [s[|s| - 1]];
    }
  }

  lemma IncreasingAppend(c: seq<nat>, id: nat)
    requires Increasing(c) && forall i :: 0 <= i < |c| ==> c[i] < id
    ensures Increasing(c + [id])
  {
  }

  lemma CollapseBelow(s: seq<nat>, id: nat)
    requires forall i :: 0 <= i < |s| ==> s[i] < id
    ensures forall i :: 0 <= i < |Collapse(s)| ==> Collapse(s)[i] < id
  {
    forall i | 0 <= i < |Collapse(s)|
      ensures Collapse(s)[i] < id
    {
      CollapseElement(s, i);
    }
  }

  /** What comes after all but its own repeat keeps the order. */
  lemma CollapseNext(sent: seq<nat>, last: nat, id: nat)
    requires Increasing(Collapse(sent)) && last < id
    requires forall i :: 0 <= i < |sent| ==> sent[i] <= last || (sent[i] == id && sent[|sent| - 1] == id)
    ensures Increasing(Collapse(sent + [id]))
  {
    CollapseAppend(sent, id);
    if !(sent != [] && sent[|sent| - 1] == id) {
      CollapseBelow(sent, id);
      IncreasingAppend(Collapse(sent), id);
    }
  }

  lemma CollapseElement(s: seq<nat>, i: nat)
    requires i < |Collapse(s)|
    ensures exists j :: 0 <= j < |s| && s[j] == Collapse(s)[i]
  {
    CollapseWithin(s);
    assert Collapse(s)[i] in s;
  }

  /** Mail that was not passed is the one that has to be mailed next. */
  lemma UnpassedIsNext(msgs: seq<Chat>, members: set<string>, outbox: seq<Chat>, seen: Option<nat>, h: Mailed, last: nat, id: nat, i: nat)
    requires OutOk(msgs, members, outbox, seen, h) && NextToMail(msgs, members, seen, h, last, id) && h.late.None?
    requires i < |h.sent|
    ensures h.sent[i] <= last || (h.sent[i] == id && h.sent[|h.sent| - 1] == id)
  {
    assert SentAs(msgs, outbox[i], members, h, h.sent[i]);
    if last < h.sent[i] {
      assert LastAt(msgs, members, h.since.Keys, h.sent, last, i);
      assert Relevant(msgs, h.since.Keys, members, h.sent[i]) && Relevant(msgs, h.since.Keys, members, id);
    }
  }

  lemma TidySent(msgs: seq<Chat>, members: set<string>, outbox: seq<Chat>, seen: Option<nat>, h: Mailed, last: nat, id: nat)
    requires OutOk(msgs, members, outbox, seen, h) && NextToMail(msgs, members, seen, h, last, id) && h.late.None?
    ensures Tidy(msgs, members, WithSent(h, id), seen)
  {
    forall i | 0 <= i < |h.sent|
      ensures h.sent[i] <= last || (h.sent[i] == id && h.sent[|h.sent| - 1] == id)
    {
      UnpassedIsNext(msgs, members, outbox, seen, h, last, id, i);
    }
    CollapseNext(h.sent, last, id);
  }

  // ---------------------------------------------------------------- the cursor is saved

  /** The pass that first saves the cursor settles where the relay looks from. */
  predicate FirstSaved(seen: Option<nat>, h: Mailed, after: Option<nat>, g: Mailed, start: nat) {
    if seen.Some? then after.Some? && g.base == h.base else after.Some? ==> g.base == start
  }

  /** Every agent's message in a registered room after lo and up to hi was mailed. */
  ghost predicate Dealt(msgs: seq<Chat>, members: set<string>, h: Mailed, lo: nat, hi: nat) {
    forall id :: lo < id <= hi && Relevant(msgs, h.since.Keys, members, id) ==> id in h.sent
  }

  /** What was dealt with is in the box. */
  lemma DealtDelivered(msgs: seq<Chat>, members: set<string>, outbox: seq<Chat>, seen: Option<nat>, h: Mailed, lo: nat, hi: nat)
    requires OutOk(msgs, members, outbox, seen, h) && Dealt(msgs, members, h, lo, hi) && hi <= |msgs|
    ensures forall k :: lo <= k < hi && msgs[k].room in h.since && msgs[k].author in members ==> msgs[k] in outbox
  {
    forall k | lo <= k < hi && msgs[k].room in h.since && msgs[k].author in members
      ensures msgs[k] in outbox
    {
      assert Relevant(msgs, h.since.Keys, members, k + 1);
      var i :| 0 <= i < |h.sent| && h.sent[i] == k + 1;
      assert SentAs(msgs, outbox[i], members, h, h.sent[i]);
    }
  }

  lemma DealtBefore(msgs: seq<Chat>, members: set<string>, h: Mailed, lo: nat, n: nat, hi: nat)
    requires n <= hi && Dealt(msgs, members, h, lo, hi)
    ensures Dealt(msgs, members, h, lo, n)
  {
  }

  function WithSeen(h: Mailed, seen: Option<nat>, last: nat): Mailed {
    h.(base := if seen.None? then last else h.base)
  }

  lemma PassGrow(before: seq<Chat>, after: seq<Chat>, members: set<string>, seen: Option<nat>, h: Mailed, last: nat, n: nat)
    requires before <= after && CanPass(before, members, seen, h, last, n)
    ensures CanPass(after, members, seen, h, last, n)
  {
    forall id: nat | last < id <= n && Relevant(after, h.since.Keys, members, id)
      ensures id in h.sent
    {
      RelevantGrow(before, after, h.since.Keys, members, id);
    }
  }

  /** A message that was dealt with may be passed. */
  lemma DealtOne(before: seq<Chat>, after: seq<Chat>, members: set<string>, seen: Option<nat>, g: Mailed, h: Mailed, last: nat, id: nat)
    requires before <= after && ToDeal(before, members, seen, g, last, id)
    requires h == if before[id - 1].author in members then WithSent(g, id) else g
    ensures CanPass(after, members, seen, h, last, id)
  {
    forall x: nat | last < x <= id && Relevant(after, h.since.Keys, members, x)
      ensures x in h.sent
    {
      RelevantGrow(before, after, h.since.Keys, members, x);
      assert x == id && h.sent[|h.sent| - 1] == id;
    }
  }

  predicate MailedAt(msgs: seq<Chat>, members: set<string>, id: nat, sent: seq<nat>) {
    1 <= id <= |msgs| && (msgs[id - 1].author in members ==> id in sent)
  }

  /** Each of these messages that an agent wrote was mailed. */
  ghost predicate AllMailed(msgs: seq<Chat>, members: set<string>, ids: seq<nat>, sent: seq<nat>) {
    forall k :: 0 <= k < |ids| ==> MailedAt(msgs, members, ids[k], sent)
  }

  lemma MailedGrow(before: seq<Chat>, after: seq<Chat>, members: set<string>, ids: seq<nat>, sent: seq<nat>, more: seq<nat>)
    requires before <= after && sent <= more && AllMailed(before, members, ids, sent)
    ensures AllMailed(after, members, ids, more)
  {
    forall k | 0 <= k < |ids|
      ensures MailedAt(after, members, ids[k], more)
    {
      assert MailedAt(before, members, ids[k], sent);
      assert after[ids[k] - 1] == before[ids[k] - 1];
      assert forall id :: id in sent ==> id in more;
    }
  }

  lemma MailedNext(msgs: seq<Chat>, members: set<string>, ids: seq<nat>, k: nat, sent: seq<nat>)
    requires k < |ids| && AllMailed(msgs, members, ids[..k], sent) && MailedAt(msgs, members, ids[k], sent)
    ensures AllMailed(msgs, members, ids[..k + 1], sent)
  {
    assert ids[..k + 1] == ids[..k] + [ids[k]];
  }

  /** One more of the query was dealt with. */
  lemma DealtNext(before: seq<Chat>, after: seq<Chat>, members: set<string>, seen: Option<nat>, g: Mailed, h: Mailed,
                  ids: seq<nat>, start: nat, k: nat)
    requires before <= after && k < |ids| && SpacedAt(before, g.since.Keys, members, ids, start, k)
    requires AllMailed(before, members, ids[..k], g.sent)
    requires h == WithSeen(if before[ids[k] - 1].author in members then WithSent(g, ids[k]) else g, seen, Last(ids, start, k))
    ensures AllMailed(after, members, ids[..k + 1], h.sent)
  {
    assert before[ids[k] - 1].author in members ==> h.sent[|g.sent|] == ids[k];
    MailedGrow(before, after, members, ids[..k], g.sent, h.sent);
    MailedNext(after, members, ids, k, h.sent);
  }

  /** Having mailed what was queried, everything was dealt with. */
  lemma QueryDealt(queried: seq<Chat>, msgs: seq<Chat>, members: set<string>, h: Mailed, start: nat)
    requires queried <= msgs && AllMailed(msgs, members, Query(queried, h.since.Keys, start, |queried|), h.sent)
    ensures Dealt(msgs, members, h, start, |queried|)
  {
    var ids := Query(queried, h.since.Keys, start, |queried|);
    forall id: nat | start < id <= |queried| && Relevant(msgs, h.since.Keys, members, id)
      ensures id in h.sent
    {
      RelevantGrow(queried, msgs, h.since.Keys, members, id);
      assert id in ids;
      var k :| 0 <= k < |ids| && ids[k] == id;
      assert MailedAt(msgs, members, ids[k], h.sent);
    }
  }

  /** A message that was overtaken was mailed by a pass that dealt with everything. */
  lemma OvertakenMailed(before: seq<Chat>, after: seq<Chat>, members: set<string>, seen: Option<nat>, g: Mailed, h: Mailed)
    requires before <= after && Orderly(before, members, g, seen) && h.late == g.late && h.since == g.since && g.sent <= h.sent
    requires seen.Some? ==> Dealt(after, members, h, seen.value, |before|)
    ensures h.late.Some? ==> h.late.value.id in h.sent
  {
    if h.late.Some? && h.late.value.id !in g.sent {
      RelevantGrow(before, after, h.since.Keys, members, h.late.value.id);
    }
  }

  /** The cursor may be saved at n: the pass stands at last, and all in between was dealt with. */
  ghost predicate CanPass(msgs: seq<Chat>, members: set<string>, seen: Option<nat>, h: Mailed, last: nat, n: nat) {
    && last <= n <= |msgs| && Dealt(msgs, members, h, last, n)
    && (seen.Some? ==> seen.value == last)
    && (seen.None? ==> forall i :: 0 <= i < |h.sent| ==> h.sent[i] <= n)
  }

  lemma OutSeen(msgs: seq<Chat>, members: set<string>, outbox: seq<Chat>, seen: Option<nat>, h: Mailed, last: nat, n: nat)
    requires OutOk(msgs, members, outbox, seen, h) && CanPass(msgs, members, seen, h, last, n)
    ensures OutOk(msgs, members, outbox, Some(n), WithSeen(h, seen, last))
  {
    var g := WithSeen(h, seen, last);
    forall i | 0 <= i < |outbox|
      ensures SentAs(msgs, outbox[i], members, g, g.sent[i])
    {
      assert SentAs(msgs, outbox[i], members, h, h.sent[i]);
    }
    forall id: nat | Owed(msgs, members, g, id) && id <= n
      ensures id in g.sent
    {
      assert id <= last ==> Owed(msgs, members, h, id);
    }
    if h.late.None? {
      forall i | 0 <= i < |h.sent|
        ensures LastAt(msgs, members, h.since.Keys, h.sent, n, i)
      {
        assert seen.Some? ==> LastAt(msgs, members, h.since.Keys, h.sent, last, i);
      }
    }
  }

  lemma IncreasingInit(c: seq<nat>, x: nat)
    requires Increasing(c + [x])
    ensures Increasing(c) && forall i :: 0 <= i < |c| ==> c[i] < x
  {
    assert (c + [x])[|c|] == x;
    assert forall i :: 0 <= i < |c| ==> (c + [x])[i] == c[i];
  }

  /** What is in order but for immediate repeats has nothing lower after anything. */
  lemma {:induction false} InOrderMeans(s: seq<nat>)
    requires Increasing(Collapse(s))
    ensures forall i, j :: 0 <= i < j < |s| ==> s[i] <= s[j]
  {
    if |s| > 1 {
      var init, x := s[..|s| - 1], s[|s| - 1];
      assert s == init + [x];
      CollapseAppend(init, x);
      CollapseLast(init);
      if init[|init| - 1] != x {
        IncreasingInit(Collapse(init), x);
      }
      InOrderMeans(init);
      assert forall i :: 0 <= i < |init| ==> s[i] == init[i] <= init[|init| - 1] <= x;
    }
  }

  /** Once everything relevant was mailed, the box is in order exactly when nothing was overtaken. */
  lemma OrderIff(msgs: seq<Chat>, members: set<string>, h: Mailed, seen: Option<nat>)
    requires Orderly(msgs, members, h, seen) && (h.late.Some? ==> h.late.value.id in h.sent)
    ensures h.late.None? <==> Increasing(Collapse(h.sent))
  {
    if h.late.Some? && Increasing(Collapse(h.sent)) {
      var late := h.late.value;
      InOrderMeans(h.sent);
    }
  }

  // ---------------------------------------------------------------- nothing interrupted

  lemma PromptNext(h: Mailed, seen: Option<nat>, last: nat, id: nat, mailed: bool)
    requires Prompt(h, seen) && last < id && (seen.Some? ==> h.base <= seen.value == last)
    ensures Prompt(WithSeen(if mailed then WithSent(h, id) else h, seen, last), Some(id))
  {
  }

  lemma PromptSame(h: Mailed, seen: Option<nat>, last: nat)
    requires Prompt(h, seen) && (seen.Some? ==> seen.value == last)
    ensures Prompt(WithSeen(h, seen, last), Some(last))
  {
  }

  // ---------------------------------------------------------------- the operations by themselves

  datatype Sheet = Sheet(msgs: seq<Chat>, members: set<string>, outbox: seq<Chat>, seen: Option<nat>, h: Mailed)

  /** A message is mailed, the cursor is saved, or a room is registered. */
  datatype Step = Mail(id: nat, last: nat) | Save(last: nat, n: nat) | Register(room: string, late: Option<Overtaken>)

  ghost predicate Allowed(s: Sheet, a: Step) {
    match a
    case Mail(id, last) => NextToMail(s.msgs, s.members, s.seen, s.h, last, id)
    case Save(last, n) => CanPass(s.msgs, s.members, s.seen, s.h, last, n)
    case Register(room, late) => room !in s.h.since && LateFor(s.msgs, s.members, s.h, s.seen, room, late)
  }

  function After(s: Sheet, a: Step): Sheet
    requires a.Mail? ==> 1 <= a.id <= |s.msgs|
  {
    match a
    case Mail(id, _) => s.(outbox := s.outbox + [s.msgs[id - 1]], h := WithSent(s.h, id))
    case Save(last, n) => s.(seen := Some(n), h := WithSeen(s.h, s.seen, last))
    case Register(room, late) => s.(h := WithRoom(s.h, s.seen, room, late))
  }

  ghost predicate IsRun(sheets: seq<Sheet>, steps: seq<Step>) {
    && |sheets| == |steps| + 1
    && forall i :: 0 <= i < |steps| ==> Allowed(sheets[i], steps[i]) && sheets[i + 1] == After(sheets[i], steps[i])
  }

  lemma Then(sheets: seq<Sheet>, steps: seq<Step>, a: Step) returns (sheets': seq<Sheet>, steps': seq<Step>)
    requires IsRun(sheets, steps) && Allowed(sheets[|steps|], a)
    ensures IsRun(sheets', steps') && |steps'| == |steps| + 1 && sheets'[0] == sheets[0]
    ensures sheets'[|steps'|] == After(sheets[|steps|], a)
  {
    sheets', steps' := sheets + [After(sheets[|steps|], a)], steps + [a];
  }

  /** Message 2 is mailed and the pass is interrupted before the cursor is saved; then the room of
      message 1 is registered. */
  lemma RegisteredUnderMail(msgs: seq<Chat>) returns (sheets: seq<Sheet>, steps: seq<Step>)
    requires msgs == [Chat("b", "dev", "first"), Chat("a", "dev", "second")]
    ensures IsRun(sheets, steps) && sheets[0] == Sheet(msgs, {"dev"}, [], Some(0), Mailed([], map["a" := 0], 0, None))
    ensures sheets[|steps|] == Sheet(msgs, {"dev"}, [msgs[1]], Some(0), Mailed([2], map["a" := 0, "b" := 0], 0, Some(Overtaken(1, 0))))
  {
    sheets, steps := [Sheet(msgs, {"dev"}, [], Some(0), Mailed([], map["a" := 0], 0, None))], [];
    sheets, steps := Then(sheets, steps, Mail(2, 0));
    assert sheets[|steps|].h.sent == [2];
    assert Overtakes(msgs, {"dev"}, [2], Some(0), "b", Overtaken(1, 0));
    sheets, steps := Then(sheets, steps, Register("b", Some(Overtaken(1, 0))));
    assert sheets[|steps|].outbox == [] + [msgs[1]] == [msgs[1]];
  }

  lemma OutOfOrder()
    ensures !Increasing(Collapse([2, 1, 2]))
  {
    if Increasing(Collapse([2, 1, 2])) {
      InOrderMeans([2, 1, 2]);
    }
  }

  /** The next pass then mails 1 before it comes to 2 again. */
  lemma MailBetweenRepeats() returns (sheets: seq<Sheet>, steps: seq<Step>)
    ensures IsRun(sheets, steps)
    ensures var s := sheets[0]; OutOk(s.msgs, s.members, s.outbox, s.seen, s.h)
    ensures sheets[|steps|].h.sent == [2, 1, 2] && !Increasing(Collapse(sheets[|steps|].h.sent))
  {
    var msgs := [Chat("b", "dev", "first"), Chat("a", "dev", "second")];
    sheets, steps := RegisteredUnderMail(msgs);
    sheets, steps := Then(sheets, steps, Mail(1, 0));
    assert sheets[|steps|].h.sent == [2] + [1] == [2, 1];
    sheets, steps := Then(sheets, steps, Save(0, 1));
    sheets, steps := Then(sheets, steps, Mail(2, 1));
    assert sheets[|steps|].h.sent == [2, 1] + [2] == [2, 1, 2];
    OutOfOrder();
  }
}
