/** The dev agent's task in one room (agents/dev.go): what it has read of the room, what its session
    was told of it, and what its database keeps of both over a restart. */
module DevTask {
  import opened Wrappers
  import opened ChatRoom

  const DEV: string := "dev"

  /** What others wrote in the room, in order: what a session has to be told. */
  function OthersOf(messages: seq<Message>, room: string): seq<Message> {
    if messages == [] then []
    else
      var before := OthersOf(messages[..|messages| - 1], room);
      var last := messages[|messages| - 1];
      if last.room == room && last.author != DEV then before + [last] else before
  }

  /** Every message of the room that dev did not write is to be told, in its place, and nothing else. */
  lemma {:induction false} EachTold(before: seq<Message>, m: Message, after: seq<Message>, room: string)
    ensures OthersOf(before + [m] + after, room)
            == OthersOf(before, room) + (if m.room == room && m.author != "dev" then [m] else []) + OthersOf(after, room)
  {
    var all := before + [m] + after;
    if after == [] {
      assert all == before + [m] && all[..|before|] == before;
    } else {
      EachTold(before, m, after[..|after| - 1], room);
      assert all[..|all| - 1] == before + [m] + after[..|after| - 1] && all[|all| - 1] == after[|after| - 1];
    }
  }

  function NotDev(news: seq<Message>): seq<Message> {
    if news == [] then []
    else
      var before := NotDev(news[..|news| - 1]);
      if news[|news| - 1].author != DEV then before + [news[|news| - 1]] else before
  }

  function LastId(news: seq<Message>, seen: nat): nat {
    if news == [] then seen else news[|news| - 1].id
  }

  /** What is read after seen, but for dev's own posts, continues what was to be told before. */
  lemma {:induction false} NewsContinue(messages: seq<Message>, room: string, seen: nat)
    requires Numbered(messages) && seen <= |messages|
    ensures OthersOf(messages, room) == OthersOf(messages[..seen], room) + NotDev(LaterIn(messages, room, seen))
    decreases |messages|
  {
    if seen == |messages| {
      NothingLater(messages, room, seen);
      assert messages[..seen] == messages;
      assert OthersOf(messages, room) + [] == OthersOf(messages, room);
    } else {
      var init, last := messages[..|messages| - 1], messages[|messages| - 1];
      NewsContinue(init, room, seen);
      assert init[..seen] == messages[..seen];
      var news, before := LaterIn(init, room, seen), OthersOf(messages[..seen], room);
      if IsLater(last, room, seen) {
        assert LaterIn(messages, room, seen) == news + [last];
        assert (news + [last])[..|news|] == news;
        assert before + NotDev(news) + [last] == before + (NotDev(news) + [last]);
      } else {
        assert LaterIn(messages, room, seen) == news + [];
        assert news + [] == news;
      }
    }
  }

  lemma {:induction false} NothingLater(messages: seq<Message>, room: string, seen: nat)
    requires Numbered(messages) && seen >= |messages|
    ensures LaterIn(messages, room, seen) == []
  {
    if messages != [] {
      NothingLater(messages[..|messages| - 1], room, seen);
    }
  }

  /** After the last message read there is nothing of the room left to tell. */
  lemma {:induction false} NothingMissed(messages: seq<Message>, room: string, seen: nat)
    requires Numbered(messages) && seen <= |messages|
    ensures seen <= LastId(LaterIn(messages, room, seen), seen) <= |messages|
    ensures OthersOf(messages[..LastId(LaterIn(messages, room, seen), seen)], room) == OthersOf(messages, room)
    decreases |messages|
  {
    if seen == |messages| {
      NothingLater(messages, room, seen);
      assert messages[..seen] == messages;
    } else {
      var init, last := messages[..|messages| - 1], messages[|messages| - 1];
      if IsLater(last, room, seen) {
        assert messages[..last.id] == messages;
      } else {
        NothingMissed(init, room, seen);
        var id := LastId(LaterIn(init, room, seen), seen);
        assert init[..id] == messages[..id];
      }
    }
  }

  lemma {:induction false} OthersGrow(messages: seq<Message>, more: seq<Message>, room: string, n: nat)
    requires n <= |messages|
    ensures OthersOf((messages + more)[..n], room) == OthersOf(messages[..n], room)
  {
    assert (messages + more)[..n] == messages[..n];
  }

  class Dev {
    const room: string
    var messages: seq<Message>
    // In this process: the last message read, and what the session's prompts have quoted.
    var seen: nat
    var told: seq<Message>
    // In the database: how far the task's record says the room was read, and what the session, as it
    // was last saved, was told; None if there is none.
    var storedSeen: Option<nat>
    var storedTold: Option<seq<Message>>

    constructor (room: string)
      ensures Valid() && Told() && StoredTold() && this.room == room
      ensures messages == [] && seen == 0 && storedSeen.None? && storedTold.None?
    {
      this.room := room;
      messages, seen, told, storedSeen, storedTold := [], 0, [], None, None;
    }

    ghost predicate Valid()
      reads this
    {
      Numbered(messages) && seen <= |messages| && (storedSeen.Some? ==> storedSeen.value <= |messages|)
    }

    /** The session was told exactly what others wrote up to the last message read, each once. */
    ghost predicate Told()
      reads this
    {
      seen <= |messages| && told == OthersOf(messages[..seen], room)
    }

    /** What a restart would resume, if anything, fits in the same way. */
    ghost predicate StoredTold()
      reads this
    {
      storedSeen.Some? && storedTold.Some? ==>
        storedSeen.value <= |messages| && storedTold.value == OthersOf(messages[..storedSeen.value], room)
    }

    /** The database has the task, and is up to date with the process. */
    ghost predicate InStep()
      reads this
    {
      storedSeen.Some? && storedTold == Some(told) && StoredTold()
    }

    /** Anybody posts, dev too. */
    method Posts(more: seq<Message>)
      requires Valid() && Numbered(messages + more)
      modifies this`messages
      ensures Valid() && messages == old(messages) + more
      ensures Told() == old(Told()) && StoredTold() == old(StoredTold()) && InStep() == old(InStep())
    {
      OthersGrow(messages, more, room, seen);
      if storedSeen.Some? {
        OthersGrow(messages, more, room, storedSeen.value);
      }
      messages := messages + more;
    }

    /** A mention: read the news, remember how far, and tell the session what others wrote. remembers
        and saves are whether the task's record and then the session reached the database. */
    method Wake(remembers: bool, saves: bool) returns (news: seq<Message>)
      requires Valid()
      modifies this`seen, this`told, this`storedSeen, this`storedTold
      ensures Valid() && news == LaterIn(messages, room, old(seen)) && seen == LastId(news, old(seen))
      ensures told == old(told) + NotDev(news) && (old(Told()) ==> Told() && told == OthersOf(messages, room))
      ensures storedSeen == (if remembers then Some(seen) else old(storedSeen))
      ensures storedTold == (if saves && NotDev(news) != [] then Some(told) else old(storedTold))
      ensures old(Told() && InStep()) ==> (StoredTold() <==> NotDev(news) == [] || remembers == saves)
    {
      news := LaterIn(messages, room, seen);
      NewsContinue(messages, room, seen);
      NothingMissed(messages, room, seen);
      seen := LastId(news, seen);
      if remembers {
        storedSeen := Some(seen);
      }
      var others := NotDev(news);
      if others == [] {
        assert told + others == told;
        return;
      }
      told := told + others;
      if saves {
        storedTold := Some(told);
      }
    }

    /** The process restarts. A task whose record and session are both there is resumed; otherwise
        the next mention starts a new one, whose session has read nothing. What the session was
        told is exact after it if and only if the database was. */
    method Restart()
      requires Valid()
      modifies this`seen, this`told, this`storedSeen, this`storedTold
      ensures Valid() && (Told() <==> old(StoredTold()))
      ensures old(storedSeen.Some? && storedTold.Some?) ==>
                storedSeen == old(storedSeen) && seen == storedSeen.value && storedTold == old(storedTold) == Some(told)
      ensures !old(storedSeen.Some? && storedTold.Some?) ==> seen == 0 && told == [] && storedSeen.None? && storedTold.None?
    {
      if storedSeen.Some? && storedTold.Some? {
        seen, told := storedSeen.value, storedTold.value;
      } else {
        seen, told, storedSeen, storedTold := 0, [], None, None;
      }
    }
  }

  lemma OneNews(messages: seq<Message>, room: string, last: Message)
    requires Numbered(messages + [last]) && last.room == room && last.author != DEV
    ensures LaterIn(messages + [last], room, |messages|) == [last] && NotDev([last]) == [last]
    ensures OthersOf(messages + [last], room) == OthersOf(messages, room) + [last]
  {
    assert (messages + [last])[..|messages|] == messages;
    assert (messages + [last])[|messages|] == last;
    NothingLater(messages, room, |messages|);
    assert [last][..0] == [];
  }

  /** A message that is lost: dev remembers having read it, and the process ends before the session
      that was told is saved. After the restart it is behind what dev has read, and the session
      never hears of it. */
  method LostOverRestart(room: string, author: string) returns (d: Dev)
    requires author != DEV
    ensures d.Valid() && d.room == room && |d.messages| == 2 && d.seen == 2
    ensures d.messages[1].room == room && d.messages[1].author == author && d.messages[1] !in d.told
  {
    var first, second := Message(1, room, author, [DEV]), Message(2, room, author, [DEV]);
    d := new Dev(room);
    d.Posts([first]);
    OneNews([], room, first);
    assert [] + [first] == [first];
    var news := d.Wake(true, true);
    d.Posts([second]);
    OneNews([first], room, second);
    assert [first] + [second] == [first, second];
    news := d.Wake(true, false);
    d.Restart();
  }
}
