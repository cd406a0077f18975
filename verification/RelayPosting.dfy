/** Mail into rooms (chatroom/mail.go:27-45): how the numbers posted, the messages they became and
    the saved cursor fit together, whatever was interrupted. */
module RelayPosting {
  import opened Wrappers
  import opened Bucket
  import Mailbox

  /** A message in a room; its ID is its place in the table, from 1. */
  datatype Chat = Chat(room: string, author: string, text: string)

  /** A slot of the to-host box, as its reader sees it: None is forged or malformed mail. */
  type Slot = Option<Message>

  // ---------------------------------------------------------------- what was posted, in order

  /** The readable numbers below n, in order. */
  function Readables(inbox: seq<Slot>, n: nat): seq<nat>
    requires n <= |inbox|
  {
    if n == 0 then []
    else if inbox[n - 1].Some? then Readables(inbox, n - 1) + [n - 1] else Readables(inbox, n - 1)
  }

  /** s without immediate repeats. */
  function Collapse(s: seq<nat>): seq<nat> {
    if |s| <= 1 then s
    else if s[|s| - 1] == s[|s| - 2] then Collapse(s[..|s| - 1])
    else Collapse(s[..|s| - 1]) + [s[|s| - 1]]
  }

  lemma {:induction false} CollapseLast(s: seq<nat>)
    requires s != []
    ensures Collapse(s) != [] && Collapse(s)[|Collapse(s)| - 1] == s[|s| - 1]
  {
    if |s| > 1 && s[|s| - 1] == s[|s| - 2] {
      CollapseLast(s[..|s| - 1]);
    }
  }

  lemma CollapseAppend(s: seq<nat>, x: nat)
    ensures Collapse(s + [x]) == if s != [] && s[|s| - 1] == x then Collapse(s) else Collapse(s) + [x]
  {
    assert (s + [x])[..|s|] == s;
    if s == [] {
      assert Collapse(s + [x]) == [x] == [] + [x];
    }
  }

  lemma {:induction false} ReadablesGrow(inbox: seq<Slot>, more: seq<Slot>, n: nat)
    requires n <= |inbox|
    ensures Readables(inbox + more, n) == Readables(inbox, n)
  {
    if n > 0 {
      ReadablesGrow(inbox, more, n - 1);
      assert (inbox + more)[n - 1] == inbox[n - 1];
    }
  }

  lemma {:induction false} ReadablesBelow(inbox: seq<Slot>, n: nat)
    requires n <= |inbox|
    ensures forall i :: 0 <= i < |Readables(inbox, n)| ==> Readables(inbox, n)[i] < n
  {
    if n > 0 {
      ReadablesBelow(inbox, n - 1);
    }
  }

  lemma {:induction false} ReadablesAll(inbox: seq<Slot>, n: nat, x: nat)
    requires n <= |inbox|
    ensures x in Readables(inbox, n) <==> x < n && inbox[x].Some?
  {
    if n > 0 {
      ReadablesAll(inbox, n - 1, x);
    }
  }

  lemma {:induction false} ReadablesSkip(inbox: seq<Slot>, c: nat, n: nat)
    requires c <= n <= |inbox| && forall i :: c <= i < n ==> inbox[i].None?
    ensures Readables(inbox, n) == Readables(inbox, c)
  {
    if c < n {
      ReadablesSkip(inbox, c, n - 1);
    }
  }

  /** The numbers posted so far, against the saved cursor c: all readable mail below c in order,
      with only immediate repeats, and perhaps the next after it, posted but not yet recorded. */
  ghost predicate PostedOk(posted: seq<nat>, inbox: seq<Slot>, c: nat)
    requires c <= |inbox|
  {
    || Collapse(posted) == Readables(inbox, c)
    || (&& posted != [] && c <= posted[|posted| - 1] < |inbox| && FirstFrom(inbox, c, posted[|posted| - 1])
        && Collapse(posted) == Readables(inbox, c) + [posted[|posted| - 1]])
  }

  /** x is the first readable number from c on. */
  ghost predicate FirstFrom(inbox: seq<Slot>, c: nat, x: nat)
    requires c <= x < |inbox|
  {
    inbox[x].Some? && forall i :: c <= i < x ==> inbox[i].None?
  }

  lemma PostedNext(posted: seq<nat>, inbox: seq<Slot>, c: nat, x: nat)
    requires c <= x < |inbox| && PostedOk(posted, inbox, c) && FirstFrom(inbox, c, x)
    ensures PostedOk(posted + [x], inbox, c)
    ensures Collapse(posted + [x]) == Readables(inbox, c) + [x] == Readables(inbox, x + 1)
  {
    CollapseAppend(posted, x);
    ReadablesSkip(inbox, c, x);
    ReadablesBelow(inbox, c);
    if posted != [] && Collapse(posted) == Readables(inbox, c) {
      CollapseLast(posted);
    }
    if posted != [] && c <= posted[|posted| - 1] < |inbox| && FirstFrom(inbox, c, posted[|posted| - 1]) {
      assert posted[|posted| - 1] == x;
    }
  }

  lemma FirstGrow(before: seq<Slot>, after: seq<Slot>, c: nat, x: nat)
    requires before <= after && c <= x < |before| && FirstFrom(before, c, x)
    ensures FirstFrom(after, c, x)
  {
  }

  lemma PostedGrow(posted: seq<nat>, inbox: seq<Slot>, more: seq<Slot>, c: nat)
    requires c <= |inbox| && PostedOk(posted, inbox, c)
    ensures PostedOk(posted, inbox + more, c)
  {
    ReadablesGrow(inbox, more, c);
  }

  // ---------------------------------------------------------------- what every operation keeps

  /** Mail into rooms: each number posted is readable mail, with the message it became; the saved
      cursor c and the numbers posted fit; rooms of recorded mail are registered. */
  ghost predicate InOk(msgs: seq<Chat>, inbox: seq<Slot>, rooms: set<string>, posted: seq<nat>, postedAs: seq<nat>, c: nat) {
    && c <= |inbox| && Pairs(msgs, inbox, posted, postedAs)
    && PostedOk(posted, inbox, c)
    && Registered(inbox, rooms, c)
    && (forall room {:trigger HasMail(inbox, room)} :: room in rooms ==> HasMail(inbox, room))
  }

  /** Each number posted became a message of its own, in order. */
  ghost predicate Pairs(msgs: seq<Chat>, inbox: seq<Slot>, posted: seq<nat>, postedAs: seq<nat>) {
    && |postedAs| == |posted|
    && (forall i {:trigger PostedAs(msgs, inbox, posted[i], postedAs[i])} ::
          0 <= i < |posted| ==> PostedAs(msgs, inbox, posted[i], postedAs[i]))
    && (forall i, j :: 0 <= i < j < |postedAs| ==> postedAs[i] < postedAs[j])
  }

  lemma PairsGrow(msgs: seq<Chat>, chats: seq<Chat>, inbox: seq<Slot>, mails: seq<Slot>, posted: seq<nat>, postedAs: seq<nat>)
    requires Pairs(msgs, inbox, posted, postedAs)
    ensures Pairs(msgs + chats, inbox + mails, posted, postedAs)
  {
    forall i | 0 <= i < |posted|
      ensures PostedAs(msgs + chats, inbox + mails, posted[i], postedAs[i])
    {
      assert PostedAs(msgs, inbox, posted[i], postedAs[i]);
    }
  }

  lemma PairsNext(msgs: seq<Chat>, chat: Chat, inbox: seq<Slot>, posted: seq<nat>, postedAs: seq<nat>, x: nat)
    requires Pairs(msgs, inbox, posted, postedAs) && x < |inbox| && inbox[x].Some?
    requires chat == Chat(inbox[x].value.room, inbox[x].value.author, inbox[x].value.text)
    ensures Pairs(msgs + [chat], inbox, posted + [x], postedAs + [|msgs| + 1])
  {
    PairsGrow(msgs, [chat], inbox, [], posted, postedAs);
    assert inbox + [] == inbox;
    forall i | 0 <= i < |postedAs|
      ensures postedAs[i] < |msgs| + 1
    {
      assert PostedAs(msgs, inbox, posted[i], postedAs[i]);
    }
  }

  /** Readable mail came from room. */
  ghost predicate HasMail(inbox: seq<Slot>, room: string) {
    exists i :: 0 <= i < |inbox| && inbox[i].Some? && inbox[i].value.room == room
  }

  lemma HasMailGrow(inbox: seq<Slot>, more: seq<Slot>, room: string)
    requires HasMail(inbox, room)
    ensures HasMail(inbox + more, room)
  {
    var i :| 0 <= i < |inbox| && inbox[i].Some? && inbox[i].value.room == room;
    assert (inbox + more)[i] == inbox[i];
  }

  predicate PostedAs(msgs: seq<Chat>, inbox: seq<Slot>, n: nat, id: nat) {
    && n < |inbox| && inbox[n].Some? && 1 <= id <= |msgs|
    && msgs[id - 1] == Chat(inbox[n].value.room, inbox[n].value.author, inbox[n].value.text)
  }

  /** Every room readable mail below c came from is registered. */
  ghost predicate Registered(inbox: seq<Slot>, rooms: set<string>, c: nat)
    requires c <= |inbox|
  {
    forall i :: 0 <= i < c && inbox[i].Some? ==> inbox[i].value.room in rooms
  }

  lemma InGrow(msgs: seq<Chat>, chats: seq<Chat>, inbox: seq<Slot>, mails: seq<Slot>, rooms: set<string>,
               posted: seq<nat>, postedAs: seq<nat>, c: nat)
    requires InOk(msgs, inbox, rooms, posted, postedAs, c)
    ensures InOk(msgs + chats, inbox + mails, rooms, posted, postedAs, c)
    ensures Readables(inbox + mails, c) == Readables(inbox, c)
  {
    PostedGrow(posted, inbox, mails, c);
    ReadablesGrow(inbox, mails, c);
    forall room | room in rooms
      ensures HasMail(inbox + mails, room)
    {
      assert HasMail(inbox, room);
      HasMailGrow(inbox, mails, room);
    }
    PairsGrow(msgs, chats, inbox, mails, posted, postedAs);
  }

  lemma InPosted(msgs: seq<Chat>, inbox: seq<Slot>, rooms: set<string>, posted: seq<nat>, postedAs: seq<nat>, c: nat, x: nat)
    requires InOk(msgs, inbox, rooms, posted, postedAs, c) && c <= x < |inbox| && FirstFrom(inbox, c, x)
    ensures var m := inbox[x].value;
            InOk(msgs + [Chat(m.room, m.author, m.text)], inbox, rooms, posted + [x], postedAs + [|msgs| + 1], c)
    ensures Collapse(posted + [x]) == Readables(inbox, x + 1)
    ensures |Readables(inbox, x + 1)| == |Readables(inbox, c)| + 1
  {
    var m := inbox[x].value;
    PairsNext(msgs, Chat(m.room, m.author, m.text), inbox, posted, postedAs, x);
    PostedNext(posted, inbox, c, x);
  }

  /** No readable mail from c up to n. */
  predicate Nothing(inbox: seq<Slot>, c: nat, n: nat) {
    c <= n <= |inbox| && forall i :: c <= i < n ==> inbox[i].None?
  }

  lemma NothingGrow(before: seq<Slot>, after: seq<Slot>, c: nat, n: nat)
    requires before <= after && Nothing(before, c, n)
    ensures Nothing(after, c, n)
  {
    assert forall i :: 0 <= i < |before| ==> after[i] == before[i];
  }

  /** Mail x, posted when the box was shorter and its room registered since, can be recorded. */
  lemma Recordable(before: seq<Slot>, after: seq<Slot>, rooms: set<string>, c: nat, x: nat)
    requires before <= after && c <= x < |before| && FirstFrom(before, c, x)
    requires Registered(after, rooms, c) && after[x].value.room in rooms
    ensures Registered(after, rooms, x + 1)
    ensures Readables(after, x + 1) == Readables(before, x + 1)
  {
    ReadablesGrow(before, after[|before|..], x + 1);
    assert after == before + after[|before|..];
    FirstGrow(before, after, c, x);
  }

  /** The cursor moves over readable mail that was posted last, or over none. */
  lemma InRecorded(msgs: seq<Chat>, inbox: seq<Slot>, rooms: set<string>, posted: seq<nat>, postedAs: seq<nat>, c: nat, n: nat)
    requires InOk(msgs, inbox, rooms, posted, postedAs, c) && c <= n <= |inbox| && Registered(inbox, rooms, n)
    requires Collapse(posted) == Readables(inbox, n) || Nothing(inbox, c, n)
    ensures InOk(msgs, inbox, rooms, posted, postedAs, n)
    ensures |Readables(inbox, c)| <= |Readables(inbox, n)|
  {
    if Nothing(inbox, c, n) {
      ReadablesSkip(inbox, c, n);
    } else {
      ReadablesMore(inbox, c, n);
    }
  }

  lemma RegisteredSkip(inbox: seq<Slot>, rooms: set<string>, c: nat, n: nat)
    requires Nothing(inbox, c, n) && Registered(inbox, rooms, c)
    ensures Registered(inbox, rooms, n)
  {
  }

  lemma {:induction false} ReadablesMore(inbox: seq<Slot>, c: nat, n: nat)
    requires c <= n <= |inbox|
    ensures |Readables(inbox, c)| <= |Readables(inbox, n)|
  {
    if c < n {
      ReadablesMore(inbox, c, n - 1);
    }
  }

  lemma {:induction false} CollapseSize(s: seq<nat>)
    ensures |Collapse(s)| <= |s|
    ensures |Collapse(s)| == |s| ==> Collapse(s) == s
  {
    if |s| > 1 {
      CollapseSize(s[..|s| - 1]);
      assert s == s[..|s| - 1] + [s[|s| - 1]];
    }
  }

  // ---------------------------------------------------------------- the box

  /** The first n numbers of the to-host box as its reader sees them. Numbers are never rewritten and
      leave no gap, so that slots are only added. */
  function Slots(objects: map<string, Object>, trusted: set<Party>, n: nat): (slots: seq<Slot>)
    ensures |slots| == n
  {
    seq(n, i requires 0 <= i < n => Mailbox.Readable(objects, trusted, Mailbox.ToHost, i))
  }

  function NumbersOf(ds: seq<Mailbox.Delivery>): seq<nat> {
    if ds == [] then [] else NumbersOf(ds[..|ds| - 1]) + [ds[|ds| - 1].n]
  }

  /** What a reader of the box is handed, number by number, is what the relay has to post. */
  lemma {:induction false} SlotsAreMail(objects: map<string, Object>, trusted: set<Party>, n: nat)
    ensures NumbersOf(Mailbox.Delivered(objects, trusted, Mailbox.ToHost, 0, n)) == Readables(Slots(objects, trusted, n), n)
  {
    if n > 0 {
      SlotsAreMail(objects, trusted, n - 1);
      var slots := Slots(objects, trusted, n);
      assert slots == Slots(objects, trusted, n - 1) + [slots[n - 1]];
      ReadablesGrow(Slots(objects, trusted, n - 1), [slots[n - 1]], n - 1);
      var before := Mailbox.Delivered(objects, trusted, Mailbox.ToHost, 0, n - 1);
      match slots[n - 1]
      case Some(m) => assert (before + [Mailbox.Delivery(n - 1, m)])[..|before|] == before;
      case None =>
    }
  }
}
