/** The relay between the chatroom's rooms and the mail boxes (chatroom/mail.go, over
    bucket/mail/mail.go). Every operation on the database or the bucket may fail, with or without
    having taken effect, which is also where a crash may fall; and before every operation others
    may post in rooms and send mail. */
module MailRelay {
  import opened Wrappers
  import opened RelayPosting
  import opened RelayMailing

  class Service {
    const members: set<string>
    var msgs: seq<Chat>
    var rooms: set<string>
    var inbox: seq<Slot>
    var outbox: seq<Chat>
    var seen: Option<nat>
    var toHost: Option<nat>
    var toLaptop: Option<nat>
    /** How much more mail others will send; it only bounds how long one pass can last. */
    var coming: nat

    // The history: the box numbers posted in rooms and the messages they became, what was mailed
    // out, and how many passes were interrupted.
    ghost var posted: seq<nat>
    ghost var postedAs: seq<nat>
    ghost var h: Mailed
    ghost var aborts: nat
    /** How many operations on the database or the bucket failed. */
    ghost var troubles: nat

    constructor (members: set<string>, coming: nat)
      ensures Valid() && aborts == 0 && this.members == members
    {
      this.members, this.coming := members, coming;
      msgs, rooms, inbox, outbox := [], {}, [], [];
      seen, toHost, toLaptop := None, None, None;
      posted, postedAs, h, aborts, troubles := [], [], Mailed([], map[], 0, None), 0, 0;
    }

    function In(): nat
      reads this`toHost
    {
      if toHost.Some? then toHost.value else 0
    }

    function Out(): nat
      reads this`toLaptop
    {
      if toLaptop.Some? then toLaptop.value else 0
    }

    /** What every operation keeps, interrupted or not. */
    ghost predicate Tables()
      reads this
    {
      && InOk(msgs, inbox, rooms, posted, postedAs, In())
      && OutOk(msgs, members, outbox, seen, h)
      && h.since.Keys == rooms && Out() <= |outbox|
    }

    /** Copies posted beyond the mail recorded, and mailed beyond the messages settled. */
    ghost function ExtraIn(): int
      reads this
      requires In() <= |inbox|
    {
      |posted| - |Readables(inbox, In())|
    }

    ghost function ExtraOut(): int
      reads this
    {
      |h.sent| - |Settled(h.sent, seen)|
    }

    /** Between passes: no more extra copies than passes were interrupted. */
    ghost predicate Valid()
      reads this
    {
      Tables() && ExtraIn() <= aborts && ExtraOut() <= aborts && (aborts == 0 ==> Prompt(h, seen))
    }

    /** Others post in rooms and send mail. */
    method Others()
      requires Tables()
      modifies this`msgs, this`inbox, this`coming
      ensures Tables() && ExtraIn() == old(ExtraIn())
      ensures old(msgs) <= msgs && old(inbox) <= inbox && coming + |inbox| == old(coming + |inbox|)
    {
      var chats: seq<Chat> := *;
      var mails: seq<Slot> := *;
      if |mails| > coming {
        return;
      }
      InGrow(msgs, chats, inbox, mails, rooms, posted, postedAs, In());
      OutGrow(msgs, chats, members, outbox, seen, h);
      msgs := msgs + chats;
      inbox := inbox + mails;
      coming := coming - |mails|;
    }

    /** What becomes of an operation: whether it takes effect, and whether it succeeds. */
    method Fate() returns (takes: bool, ok: bool)
      modifies this`troubles
      ensures ok ==> takes
      ensures troubles == if ok then old(troubles) else old(troubles) + 1
    {
      takes := *;
      ok := *;
      ok := ok && takes;
      troubles := if ok then troubles else troubles + 1;
    }

    // ---------------------------------------------------------------- mail into rooms

    /** The post takes effect. */
    method Append(x: nat)
      requires Tables() && In() <= x < |inbox| && FirstFrom(inbox, In(), x)
      modifies this`msgs, this`posted, this`postedAs
      ensures Tables() && old(msgs) <= msgs && posted == old(posted) + [x]
      ensures Collapse(posted) == Readables(inbox, x + 1)
      ensures |Readables(inbox, x + 1)| == |Readables(inbox, In())| + 1
    {
      var m := inbox[x].value;
      InPosted(msgs, inbox, rooms, posted, postedAs, In(), x);
      OutGrow(msgs, [Chat(m.room, m.author, m.text)], members, outbox, seen, h);
      postedAs := postedAs + [|msgs| + 1];
      msgs := msgs + [Chat(m.room, m.author, m.text)];
      posted := posted + [x];
    }

    /** Post mail number x in its room. */
    method PostMail(x: nat) returns (ok: bool)
      requires Tables() && In() <= x < |inbox| && FirstFrom(inbox, In(), x)
      modifies this`msgs, this`inbox, this`coming, this`posted, this`postedAs, this`troubles
      ensures troubles == if ok then old(troubles) else old(troubles) + 1
      ensures Tables() && ExtraIn() <= old(ExtraIn()) + 1
      ensures old(msgs) <= msgs && old(inbox) <= inbox && coming + |inbox| == old(coming + |inbox|)
      ensures posted == old(posted) + [x] || (!ok && posted == old(posted))
      ensures ok ==> Collapse(posted) == Readables(inbox, x + 1)
      ensures ok ==> |Readables(inbox, x + 1)| == |Readables(inbox, In())| + 1
    {
      ghost var before := inbox;
      Others();
      FirstGrow(before, inbox, In(), x);
      var takes;
      takes, ok := Fate();
      if takes {
        Append(x);
      }
    }

    /** The room is registered, if it is not yet. */
    method AddRoom(room: string)
      requires Tables() && HasMail(inbox, room)
      modifies this`rooms, this`h
      ensures Tables() && ExtraIn() == old(ExtraIn()) && rooms == old(rooms) + {room}
      ensures h.sent == old(h.sent) && h.base == old(h.base) && Rooms(msgs, members, seen, old(h), h)
    {
      if room in rooms {
        assert rooms + {room} == rooms;
        return;
      }
      ghost var late := h.late;
      if h.late.None? && exists o :: Overtakes(msgs, members, h.sent, seen, room, o) {
        ghost var o :| Overtakes(msgs, members, h.sent, seen, room, o);
        late := Some(o);
      }
      OutRegister(msgs, members, outbox, seen, h, room, late);
      rooms := rooms + {room};
      h := WithRoom(h, seen, room, late);
    }

    method Register(room: string) returns (ok: bool)
      requires Tables() && HasMail(inbox, room)
      modifies this`msgs, this`inbox, this`coming, this`rooms, this`h, this`troubles
      ensures troubles == if ok then old(troubles) else old(troubles) + 1
      ensures Tables() && ExtraIn() == old(ExtraIn())
      ensures old(msgs) <= msgs && old(inbox) <= inbox && coming + |inbox| == old(coming + |inbox|)
      ensures old(rooms) <= rooms && (ok ==> room in rooms)
      ensures h.sent == old(h.sent) && h.base == old(h.base) && Rooms(msgs, members, seen, old(h), h)
    {
      ghost var before := inbox;
      Others();
      HasMailGrow(before, inbox[|before|..], room);
      assert inbox == before + inbox[|before|..];
      var takes;
      takes, ok := Fate();
      if takes {
        AddRoom(room);
      }
    }

    /** Save that mail below n has been posted. */
    method SetToHost(n: nat) returns (ok: bool)
      requires Tables() && In() <= n <= |inbox| && Registered(inbox, rooms, n)
      requires Collapse(posted) == Readables(inbox, n) || Nothing(inbox, In(), n)
      modifies this`msgs, this`inbox, this`coming, this`toHost, this`troubles
      ensures troubles == if ok then old(troubles) else old(troubles) + 1
      ensures Tables() && ExtraIn() <= old(ExtraIn())
      ensures old(msgs) <= msgs && old(inbox) <= inbox && coming + |inbox| == old(coming + |inbox|)
      ensures ok ==> toHost == Some(n) && ExtraIn() == |posted| - old(|Readables(inbox, n)|)
    {
      ghost var before := inbox;
      Others();
      assert inbox == before + inbox[|before|..];
      ReadablesGrow(before, inbox[|before|..], n);
      var takes;
      takes, ok := Fate();
      if takes {
        InRecorded(msgs, inbox, rooms, posted, postedAs, In(), n);
        toHost := Some(n);
      }
    }

    /** The same, when rooms were registered since the history was g. */
    method Record(n: nat, ghost g: Mailed) returns (ok: bool)
      requires Tables() && In() <= n <= |inbox| && Registered(inbox, rooms, n)
      requires Collapse(posted) == Readables(inbox, n) || Nothing(inbox, In(), n)
      requires g.sent == h.sent && Rooms(msgs, members, seen, g, h)
      modifies this`msgs, this`inbox, this`coming, this`toHost, this`troubles
      ensures troubles == if ok then old(troubles) else old(troubles) + 1
      ensures Tables() && ExtraIn() <= old(ExtraIn()) && Rooms(msgs, members, seen, g, h)
      ensures old(msgs) <= msgs && old(inbox) <= inbox && coming + |inbox| == old(coming + |inbox|)
      ensures ok ==> toHost == Some(n) && ExtraIn() == |posted| - old(|Readables(inbox, n)|)
    {
      ghost var before := msgs;
      ok := SetToHost(n);
      SentBelow(before, members, outbox, seen, h);
      RoomsGrow(before, msgs, members, seen, g, h);
    }

    /** One arrived message: posted, its room registered, the cursor saved. */
    method Arrived(x: nat) returns (ok: bool)
      requires Tables() && ExtraIn() <= aborts && In() <= x < |inbox| && FirstFrom(inbox, In(), x)
      modifies this`msgs, this`inbox, this`coming, this`rooms, this`h, this`posted, this`postedAs, this`toHost, this`troubles
      ensures troubles == if ok then old(troubles) else old(troubles) + 1
      ensures Tables() && ExtraIn() <= aborts + (if ok then 0 else 1)
      ensures old(msgs) <= msgs && old(inbox) <= inbox && coming + |inbox| == old(coming + |inbox|)
      ensures old(posted) <= posted && old(rooms) <= rooms && (ok ==> toHost == Some(x + 1))
      ensures h.sent == old(h.sent) && h.base == old(h.base) && Rooms(msgs, members, seen, old(h), h)
    {
      ghost var before := inbox;
      var room := inbox[x].value.room;
      ok := PostMail(x);
      if !ok {
        return;
      }
      FirstGrow(before, inbox, In(), x);
      ok := Recorded(x, room);
    }

    /** The rest of it, once posted. */
    method Recorded(x: nat, room: string) returns (ok: bool)
      requires Tables() && ExtraIn() <= aborts + 1 && In() <= x < |inbox| && FirstFrom(inbox, In(), x)
      requires room == inbox[x].value.room && Collapse(posted) == Readables(inbox, x + 1)
      requires |Readables(inbox, x + 1)| == |Readables(inbox, In())| + 1
      modifies this`msgs, this`inbox, this`coming, this`rooms, this`h, this`toHost, this`troubles
      ensures troubles == if ok then old(troubles) else old(troubles) + 1
      ensures Tables() && ExtraIn() <= aborts + (if ok then 0 else 1)
      ensures old(msgs) <= msgs && old(inbox) <= inbox && coming + |inbox| == old(coming + |inbox|)
      ensures old(rooms) <= rooms && (ok ==> toHost == Some(x + 1))
      ensures h.sent == old(h.sent) && h.base == old(h.base) && Rooms(msgs, members, seen, old(h), h)
    {
      ghost var before := inbox;
      ok := Register(room);
      if !ok {
        return;
      }
      Recordable(before, inbox, rooms, In(), x);
      ok := Record(x + 1, old(h));
    }

    /** One number of the walk: no mail yet, mail that cannot be read, or mail to post. */
    method Take(next: nat) returns (ok: bool, more: bool)
      requires Tables() && ExtraIn() <= aborts && next <= |inbox| && Nothing(inbox, In(), next)
      modifies this`msgs, this`inbox, this`coming, this`rooms, this`h, this`posted, this`postedAs, this`toHost, this`troubles
      ensures troubles == if ok then old(troubles) else old(troubles) + 1
      ensures Tables() && ExtraIn() <= aborts + (if ok then 0 else 1)
      ensures old(msgs) <= msgs && old(inbox) <= inbox && coming + |inbox| == old(coming + |inbox|)
      ensures old(posted) <= posted && old(rooms) <= rooms
      ensures h.sent == old(h.sent) && h.base == old(h.base) && Rooms(msgs, members, seen, old(h), h)
      ensures ok && !more ==> Nothing(inbox, In(), next) && next >= old(|inbox|)
      ensures ok && more ==> next < |inbox| && Nothing(inbox, In(), next + 1)
    {
      ghost var before := inbox;
      Others();
      NothingGrow(before, inbox, In(), next);
      var _, readable := Fate();
      ok := readable;
      more := ok && next < |inbox|;
      if more && inbox[next].Some? {
        ok := Arrived(next);
      }
    }

    /** What arrived for the host, number by number until one is missing. */
    method Inbound() returns (ok: bool)
      requires Tables() && ExtraIn() <= aborts
      modifies this`msgs, this`inbox, this`coming, this`rooms, this`h, this`posted, this`postedAs, this`toHost, this`troubles
      ensures troubles == if ok then old(troubles) else old(troubles) + 1
      ensures Tables() && ExtraIn() <= aborts + (if ok then 0 else 1)
      ensures old(msgs) <= msgs && old(inbox) <= inbox && old(posted) <= posted && old(rooms) <= rooms
      ensures h.sent == old(h.sent) && h.base == old(h.base) && Rooms(msgs, members, seen, old(h), h)
      ensures ok ==> In() >= old(|inbox|)
    {
      var next: nat := In();
      var more := true;
      ok := true;
      while more
        invariant troubles == old(troubles)
        invariant Tables() && ExtraIn() <= aborts && next <= |inbox| && Nothing(inbox, In(), next)
        invariant old(msgs) <= msgs && old(inbox) <= inbox && old(posted) <= posted && old(rooms) <= rooms
        invariant h.sent == old(h.sent) && h.base == old(h.base) && Rooms(msgs, members, seen, old(h), h)
        invariant !more ==> next >= old(|inbox|)
        decreases coming + |inbox| - next + (if more then 1 else 0)
      {
        ghost var chats, g := msgs, h;
        ok, more := Take(next);
        SentBelow(chats, members, outbox, seen, g);
        RoomsGrow(chats, msgs, members, seen, old(h), g);
        RoomsThen(msgs, members, seen, old(h), g, h);
        if !ok {
          return;
        }
        if more {
          next := next + 1;
        }
      }
      RegisteredSkip(inbox, rooms, In(), next);
      ok := Record(next, old(h));
    }

    // ---------------------------------------------------------------- rooms into mail

    /** The create takes effect: message id is in the laptop's box. */
    method Deliver(id: nat, last: nat)
      requires Tables() && NextToMail(msgs, members, seen, h, last, id)
      modifies this`outbox, this`h
      ensures Tables() && h == WithSent(old(h), id) && |outbox| == old(|outbox|) + 1
      ensures ExtraOut() <= old(ExtraOut()) + 1
    {
      OutSent(msgs, members, outbox, seen, h, last, id);
      SettledAppend(h.sent, seen, id);
      outbox := outbox + [msgs[id - 1]];
      h := WithSent(h, id);
    }

    /** Mail message id to the laptop, as the first free number at or after the cursor. */
    method SendMail(id: nat, last: nat, next: nat) returns (ok: bool, out: nat)
      requires Tables() && NextToMail(msgs, members, seen, h, last, id) && next <= |outbox|
      modifies this`msgs, this`inbox, this`coming, this`outbox, this`h, this`troubles
      ensures troubles == if ok then old(troubles) else old(troubles) + 1
      ensures Tables() && old(msgs) <= msgs && old(inbox) <= inbox && ExtraIn() == old(ExtraIn())
      ensures h == WithSent(old(h), id) || (!ok && h == old(h))
      ensures ExtraOut() <= old(ExtraOut()) + 1
      ensures ok ==> out == |outbox| - 1
    {
      out := next;
      while true
        invariant troubles == old(troubles)
        invariant Tables() && old(msgs) <= msgs && old(inbox) <= inbox && ExtraIn() == old(ExtraIn())
        invariant out <= |outbox| && h == old(h) && NextToMail(msgs, members, seen, h, last, id)
        decreases |outbox| - out
      {
        ghost var before := msgs;
        Others();
        NextGrow(before, msgs, members, seen, h, last, id);
        var takes;
        takes, ok := Fate();
        if takes && out == |outbox| {
          Deliver(id, last);
          return;
        }
        if !ok {
          return;
        }
        out := out + 1;
      }
    }

    method SetToLaptop(n: nat) returns (ok: bool)
      requires Tables() && n <= |outbox|
      modifies this`msgs, this`inbox, this`coming, this`toLaptop, this`troubles
      ensures troubles == if ok then old(troubles) else old(troubles) + 1
      ensures Tables() && old(msgs) <= msgs && old(inbox) <= inbox && ExtraIn() == old(ExtraIn())
    {
      Others();
      var takes;
      takes, ok := Fate();
      if takes {
        toLaptop := Some(n);
      }
    }

    /** The save takes effect. */
    method Mark(last: nat, n: nat)
      requires Tables() && CanPass(msgs, members, seen, h, last, n)
      modifies this`seen, this`h
      ensures Tables() && seen == Some(n) && h == WithSeen(old(h), old(seen), last)
      ensures ExtraOut() <= old(ExtraOut())
      ensures n in h.sent && (old(seen).Some? ==> old(seen).value < n) ==> ExtraOut() + 1 <= old(ExtraOut())
    {
      OutSeen(msgs, members, outbox, seen, h, last, n);
      SettledMore(h.sent, seen, n);
      h := WithSeen(h, seen, last);
      seen := Some(n);
    }

    /** Save that messages up to n are dealt with; the pass stands at last. */
    method SetSeen(last: nat, n: nat) returns (ok: bool)
      requires Tables() && CanPass(msgs, members, seen, h, last, n)
      modifies this`msgs, this`inbox, this`coming, this`seen, this`h, this`troubles
      ensures troubles == if ok then old(troubles) else old(troubles) + 1
      ensures Tables() && old(msgs) <= msgs && old(inbox) <= inbox && ExtraIn() == old(ExtraIn())
      ensures (seen == Some(n) && h == WithSeen(old(h), old(seen), last)) || (!ok && seen == old(seen) && h == old(h))
      ensures ExtraOut() <= old(ExtraOut())
      ensures ok && n in h.sent && (old(seen).Some? ==> old(seen).value < n) ==> ExtraOut() + 1 <= old(ExtraOut())
    {
      ghost var before := msgs;
      Others();
      PassGrow(before, msgs, members, seen, h, last, n);
      var takes;
      takes, ok := Fate();
      if takes {
        Mark(last, n);
      }
    }

    /** Mail message id and save the cursor behind it. */
    method MailOut(id: nat, last: nat, next: nat) returns (ok: bool, out: nat)
      requires Tables() && NextToMail(msgs, members, seen, h, last, id) && next <= |outbox|
      modifies this`msgs, this`inbox, this`coming, this`outbox, this`h, this`toLaptop, this`troubles
      ensures troubles == if ok then old(troubles) else old(troubles) + 1
      ensures Tables() && old(msgs) <= msgs && old(inbox) <= inbox && ExtraIn() == old(ExtraIn()) && out <= |outbox|
      ensures h == WithSent(old(h), id) || (!ok && h == old(h))
      ensures ExtraOut() <= old(ExtraOut()) + 1
    {
      ok, out := SendMail(id, last, next);
      if !ok {
        out := 0;
        return;
      }
      out := out + 1;
      ok := SetToLaptop(out);
    }

    /** One message of the query: mailed if an agent wrote it, then passed. */
    method Deal(id: nat, last: nat, next: nat) returns (ok: bool, out: nat)
      requires Tables() && ExtraOut() <= aborts && next <= |outbox|
      requires ToDeal(msgs, members, seen, h, last, id)
      modifies this`msgs, this`inbox, this`coming, this`outbox, this`h, this`toLaptop, this`seen, this`troubles
      ensures troubles == if ok then old(troubles) else old(troubles) + 1
      ensures Tables() && old(msgs) <= msgs && old(inbox) <= inbox && ExtraIn() == old(ExtraIn()) && out <= |outbox|
      ensures ExtraOut() <= aborts + (if ok then 0 else 1)
      ensures old(h.sent) <= h.sent && h.since == old(h.since) && h.late == old(h.late)
      ensures ok ==> && seen == Some(id)
                     && h == WithSeen(if old(msgs[id - 1].author in members) then WithSent(old(h), id) else old(h), old(seen), last)
      ensures FirstSaved(old(seen), old(h), seen, h, last)
    {
      ghost var before, g := msgs, h;
      out, ok := next, true;
      if msgs[id - 1].author in members {
        ok, out := MailOut(id, last, next);
        if !ok {
          return;
        }
      }
      DealtOne(before, msgs, members, seen, g, h, last, id);
      ok := SetSeen(last, id);
    }

    /** The next message of the query, with what the pass has done before it. */
    method DealNext(ids: seq<nat>, start: nat, k: nat, next: nat) returns (ok: bool, out: nat)
      requires Tables() && ExtraOut() <= aborts && (aborts == 0 ==> Prompt(h, seen)) && next <= |outbox|
      requires k < |ids| && Spaced(msgs, h.since.Keys, members, ids, start)
      requires Stands(seen, h, Last(ids, start, k)) && AllMailed(msgs, members, ids[..k], h.sent)
      modifies this`msgs, this`inbox, this`coming, this`outbox, this`h, this`toLaptop, this`seen, this`troubles
      ensures troubles == if ok then old(troubles) else old(troubles) + 1
      ensures Tables() && old(msgs) <= msgs && old(inbox) <= inbox && ExtraIn() == old(ExtraIn()) && out <= |outbox|
      ensures ExtraOut() <= aborts + (if ok then 0 else 1)
      ensures old(h.sent) <= h.sent && h.since == old(h.since) && h.late == old(h.late)
      ensures ok && aborts == 0 ==> Prompt(h, seen)
      ensures ok ==> && seen == Some(ids[k]) && Spaced(msgs, h.since.Keys, members, ids, start)
                     && AllMailed(msgs, members, ids[..k + 1], h.sent)
      ensures FirstSaved(old(seen), old(h), seen, h, Last(ids, start, k))
    {
      ghost var before, g, was := msgs, h, seen;
      assert SpacedAt(msgs, h.since.Keys, members, ids, start, k);
      ok, out := Deal(ids[k], Last(ids, start, k), next);
      if !ok {
        return;
      }
      SpacedGrow(before, msgs, h.since.Keys, members, ids, start);
      if aborts == 0 {
        PromptNext(g, was, Last(ids, start, k), ids[k], before[ids[k] - 1].author in members);
      }
      DealtNext(before, msgs, members, was, g, h, ids, start, k);
    }

    /** Deals with the messages of the query, one by one. */
    method DealAll(ids: seq<nat>, start: nat) returns (ok: bool)
      requires Tables() && ExtraOut() <= aborts && (aborts == 0 ==> Prompt(h, seen)) && Stands(seen, h, start)
      requires start <= |msgs| && Spaced(msgs, h.since.Keys, members, ids, start)
      modifies this`msgs, this`inbox, this`coming, this`outbox, this`h, this`toLaptop, this`seen, this`troubles
      ensures troubles == if ok then old(troubles) else old(troubles) + 1
      ensures Tables() && old(msgs) <= msgs && old(inbox) <= inbox && ExtraIn() == old(ExtraIn())
      ensures ExtraOut() <= aborts + (if ok then 0 else 1)
      ensures old(h.sent) <= h.sent && h.since == old(h.since) && h.late == old(h.late)
      ensures ok && aborts == 0 ==> Prompt(h, seen)
      ensures ok ==> AllMailed(msgs, members, ids, h.sent)
      ensures FirstSaved(old(seen), old(h), seen, h, start)
    {
      var out: nat, k: nat := Out(), 0;
      while k < |ids|
        invariant troubles == old(troubles)
        invariant Tables() && ExtraOut() <= aborts && (aborts == 0 ==> Prompt(h, seen))
        invariant k <= |ids| && Last(ids, start, k) <= |msgs| && Stands(seen, h, Last(ids, start, k)) && (k > 0 ==> seen.Some?)
        invariant Spaced(msgs, h.since.Keys, members, ids, start) && out <= |outbox|
        invariant old(msgs) <= msgs && old(inbox) <= inbox && ExtraIn() == old(ExtraIn())
        invariant old(h.sent) <= h.sent && h.since == old(h.since) && h.late == old(h.late)
        invariant AllMailed(msgs, members, ids[..k], h.sent)
        invariant FirstSaved(old(seen), old(h), seen, h, start)
      {
        ok, out := DealNext(ids, start, k, out);
        if !ok {
          return;
        }
        k := k + 1;
      }
      assert ids[..|ids|] == ids;
      ok := LastSeen(ids, Last(ids, start, k));
    }

    /** The save after the last message. */
    method LastSeen(ids: seq<nat>, s: nat) returns (ok: bool)
      requires Tables() && ExtraOut() <= aborts && (aborts == 0 ==> Prompt(h, seen)) && Stands(seen, h, s) && s <= |msgs|
      requires AllMailed(msgs, members, ids, h.sent)
      modifies this`msgs, this`inbox, this`coming, this`seen, this`h, this`troubles
      ensures troubles == if ok then old(troubles) else old(troubles) + 1
      ensures Tables() && old(msgs) <= msgs && old(inbox) <= inbox && ExtraIn() == old(ExtraIn()) && ExtraOut() <= aborts
      ensures h.sent == old(h.sent) && h.since == old(h.since) && h.late == old(h.late)
      ensures ok && aborts == 0 ==> Prompt(h, seen)
      ensures ok ==> AllMailed(msgs, members, ids, h.sent)
      ensures FirstSaved(old(seen), old(h), seen, h, s)
    {
      if aborts == 0 {
        PromptSame(h, seen, s);
      }
      ghost var before := msgs;
      ok := SetSeen(s, s);
      MailedGrow(before, msgs, members, ids, h.sent, h.sent);
    }

    /** Mails the agents' messages after start in the rooms mail came from. */
    method Outbound(start: nat) returns (ok: bool)
      requires Tables() && ExtraOut() <= aborts && (aborts == 0 ==> Prompt(h, seen)) && Stands(seen, h, start)
      requires start <= |msgs|
      modifies this`msgs, this`inbox, this`coming, this`outbox, this`h, this`toLaptop, this`seen, this`troubles
      ensures troubles == if ok then old(troubles) else old(troubles) + 1
      ensures Tables() && old(msgs) <= msgs && old(inbox) <= inbox && ExtraIn() == old(ExtraIn())
      ensures ExtraOut() <= aborts + (if ok then 0 else 1)
      ensures old(h.sent) <= h.sent && h.since == old(h.since) && h.late == old(h.late)
      ensures ok && aborts == 0 ==> Prompt(h, seen)
      ensures ok ==> Dealt(msgs, members, h, start, old(|msgs|))
      ensures FirstSaved(old(seen), old(h), seen, h, start)
    {
      Others();
      var _, readable := Fate();
      ok := readable;
      if !ok {
        return;
      }
      QuerySpaced(msgs, rooms, members, start);
      var ids := Query(msgs, rooms, start, |msgs|);
      ghost var queried := msgs;
      ok := DealAll(ids, start);
      if ok {
        QueryDealt(queried, msgs, members, h, start);
      }
    }

    /** The second half of a pass whose history was before at its start: once all is mailed, the box
        is in order exactly when nothing in it was overtaken. */
    method Outward(start: nat, ghost before: Mailed) returns (ok: bool)
      requires Tables() && ExtraOut() <= aborts && (aborts == 0 ==> Prompt(h, seen)) && Stands(seen, h, start)
      requires start <= |msgs| && before.sent == h.sent && Rooms(msgs, members, seen, before, h)
      modifies this`msgs, this`inbox, this`coming, this`outbox, this`h, this`toLaptop, this`seen, this`troubles
      ensures troubles == if ok then old(troubles) else old(troubles) + 1
      ensures Tables() && old(msgs) <= msgs && old(inbox) <= inbox && ExtraIn() == old(ExtraIn())
      ensures ExtraOut() <= aborts + (if ok then 0 else 1)
      ensures old(h.sent) <= h.sent && h.since == old(h.since) && h.late == old(h.late)
      ensures ok && aborts == 0 ==> Prompt(h, seen)
      ensures ok ==> Dealt(msgs, members, h, start, old(|msgs|)) && (h.late.None? <==> Increasing(Collapse(h.sent)))
      ensures FirstSaved(old(seen), old(h), seen, h, start) && Rooms(msgs, members, old(seen), before, h)
    {
      ghost var chats, g, was := msgs, h, seen;
      SentBelow(chats, members, outbox, was, g);
      ok := Outbound(start);
      RoomsGrow(chats, msgs, members, was, before, g);
      if ok {
        OvertakenMailed(chats, msgs, members, was, g, h);
        OrderIff(msgs, members, h, seen);
      }
    }

    /** The steps of a pass that has read its cursor. */
    method Relay(start: nat) returns (ok: bool)
      requires Valid() && start == if seen.Some? then seen.value else |msgs|
      modifies this`msgs, this`inbox, this`coming, this`rooms, this`h, this`posted, this`postedAs, this`toHost
      modifies this`outbox, this`toLaptop, this`seen, this`troubles
      ensures troubles == if ok then old(troubles) else old(troubles) + 1
      ensures Tables() && ExtraIn() <= aborts + (if ok then 0 else 1) && ExtraOut() <= aborts + (if ok then 0 else 1)
      ensures ok && aborts == 0 ==> Prompt(h, seen)
      ensures old(msgs) <= msgs && old(inbox) <= inbox && old(rooms) <= rooms
      ensures old(posted) <= posted && old(h.sent) <= h.sent && Rooms(msgs, members, old(seen), old(h), h)
      ensures FirstSaved(old(seen), old(h), seen, h, start)
      ensures ok ==> In() >= old(|inbox|) && Dealt(msgs, members, h, start, old(|msgs|))
      ensures ok ==> (h.late.None? <==> Increasing(Collapse(h.sent)))
    {
      StandsAtStart(msgs, members, outbox, seen, h);
      ok := Inbound();
      if ok {
        ghost var hi := |msgs|;
        ok := Outward(start, old(h));
        if ok {
          DealtBefore(msgs, members, h, start, old(|msgs|), hi);
        }
      }
    }

    /** One pass. Wherever it is interrupted, what holds between passes holds after it. One that is
        not has posted all the mail there was, and mailed every agent's message there was after the
        cursor, or after its own beginning if it is the first. */
    method RelayMail() returns (ok: bool)
      requires Valid()
      modifies this
      ensures troubles == if ok then old(troubles) else old(troubles) + 1
      ensures Valid() && aborts == old(aborts) + (if ok then 0 else 1)
      ensures old(msgs) <= msgs && old(inbox) <= inbox && old(rooms) <= rooms
      ensures old(posted) <= posted && old(h.sent) <= h.sent && Rooms(msgs, members, old(seen), old(h), h)
      ensures FirstSaved(old(seen), old(h), seen, h, old(|msgs|))
      ensures ok ==> In() >= old(|inbox|)
      ensures ok ==> Dealt(msgs, members, h, if old(seen).Some? then old(seen).value else old(|msgs|), old(|msgs|))
      ensures ok ==> forall k :: (if old(seen).Some? then old(seen).value else old(|msgs|)) <= k < old(|msgs|) ==>
                (msgs[k].room in rooms && msgs[k].author in members ==> msgs[k] in outbox)
      ensures ok ==> (h.late.None? <==> Increasing(Collapse(h.sent)))
    {
      var _, readable := Fate();
      ok := readable;
      if ok {
        ok := Relay(if seen.Some? then seen.value else |msgs|);
        if ok {
          DealtDelivered(msgs, members, outbox, seen, h, if old(seen).Some? then old(seen).value else old(|msgs|), old(|msgs|));
        }
      }
      if !ok {
        aborts := aborts + 1;
      }
    }

    /** Any number of passes, some interrupted, with posts and mail in between. */
    method Passes(times: nat)
      requires Valid()
      modifies this
      ensures Valid() && old(aborts) <= aborts <= old(aborts) + times
      ensures old(msgs) <= msgs && old(inbox) <= inbox && old(posted) <= posted && old(h.sent) <= h.sent
    {
      for i := 0 to times
        invariant Valid() && old(aborts) <= aborts <= old(aborts) + i
        invariant old(msgs) <= msgs && old(inbox) <= inbox && old(posted) <= posted && old(h.sent) <= h.sent
      {
        Others();
        var _ := RelayMail();
      }
    }
  }

  // ---------------------------------------------------------------- what it comes to

  /** However often passes were interrupted: the rooms got the readable mail in the order of its
      numbers with only immediate repeats; both ways there are no more extra copies than
      interruptions; every agent's message that the saved seen cursor passed, in a room that was
      registered before it, is in the laptop's box. */
  lemma Interrupted(s: Service)
    requires s.Valid()
    ensures Collapse(s.posted) == Readables(s.inbox, s.In())
            || exists x :: s.In() <= x < |s.inbox| && FirstFrom(s.inbox, s.In(), x)
                           && Collapse(s.posted) == Readables(s.inbox, x + 1)
    ensures |s.posted| - |Collapse(s.posted)| <= s.aborts
    ensures |s.h.sent| - |Ids(s.h.sent)| <= s.aborts
    ensures forall id: nat :: s.seen.Some? && Owed(s.msgs, s.members, s.h, id) && id <= s.seen.value ==> id in s.h.sent
    ensures s.h.late.None? ==> Increasing(Collapse(s.h.sent))
  {
    var c := s.In();
    if Collapse(s.posted) != Readables(s.inbox, c) {
      var x := s.posted[|s.posted| - 1];
      ReadablesSkip(s.inbox, c, x);
      assert FirstFrom(s.inbox, c, x) && Collapse(s.posted) == Readables(s.inbox, x + 1);
    }
    SubsetSize(Settled(s.h.sent, s.seen), Ids(s.h.sent));
  }

  /** However often passes were interrupted: mail the cursor passed is in its room word for word, with
      the room registered; and what is in the laptop's box are messages of agents, word for word, in
      rooms that mail came from. */
  lemma WordForWord(s: Service)
    requires s.Valid()
    ensures forall n: nat :: n < s.In() && s.inbox[n].Some? ==>
              && Chat(s.inbox[n].value.room, s.inbox[n].value.author, s.inbox[n].value.text) in s.msgs
              && s.inbox[n].value.room in s.rooms
    ensures forall mail :: mail in s.outbox ==> && mail in s.msgs && mail.author in s.members
                                                && exists n :: 0 <= n < |s.inbox| && s.inbox[n].Some? && s.inbox[n].value.room == mail.room
  {
    forall n: nat | n < s.In() && s.inbox[n].Some?
      ensures Chat(s.inbox[n].value.room, s.inbox[n].value.author, s.inbox[n].value.text) in s.msgs
    {
      ReadablesAll(s.inbox, s.In(), n);
      CollapseWithin(s.posted);
      assert n in s.posted;
      var i :| 0 <= i < |s.posted| && s.posted[i] == n;
      assert PostedAs(s.msgs, s.inbox, s.posted[i], s.postedAs[i]);
    }
    forall mail | mail in s.outbox
      ensures mail in s.msgs && mail.author in s.members && HasMail(s.inbox, mail.room)
    {
      var i :| 0 <= i < |s.outbox| && s.outbox[i] == mail;
      assert SentAs(s.msgs, s.outbox[i], s.members, s.h, s.h.sent[i]);
      assert mail.room in s.rooms;
    }
  }

  /** Passes that were never interrupted deliver exactly once, in order, both ways: all readable mail
      before the cursor was posted, and what was mailed is all that had to be up to the cursor. */
  lemma ExactlyOnce(s: Service)
    requires s.Valid() && s.aborts == 0
    ensures s.posted == Readables(s.inbox, s.In())
    ensures Increasing(s.h.sent)
    ensures forall id: nat :: id in s.h.sent <==> s.seen.Some? && Owed(s.msgs, s.members, s.h, id) && id <= s.seen.value
  {
    CollapseSize(s.posted);
    forall id: nat | id in s.h.sent
      ensures s.seen.Some? && Owed(s.msgs, s.members, s.h, id) && id <= s.seen.value
    {
      var i :| 0 <= i < |s.h.sent| && s.h.sent[i] == id;
      assert SentAs(s.msgs, s.outbox[i], s.members, s.h, s.h.sent[i]);
    }
  }
}
