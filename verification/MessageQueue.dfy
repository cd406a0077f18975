/** The queue between an XMPP stream and the bridge's one consumer
    (metaharness/bridge/xmpp/bridge.go): an unbounded list under a lock, and a one-slot channel that
    says there is something in it. */
module MessageQueue {
  import opened Wrappers

  /** One step of a pusher or of the consumer, as they may interleave. */
  datatype Step<M> = Append(m: M) | Signal | Take | Pop

  /** The messages that pushers append, in order. */
  function Appends<M>(steps: seq<Step<M>>): seq<M> {
    if steps == [] then []
    else
      var before, last := Appends(steps[..|steps| - 1]), steps[|steps| - 1];
      if last.Append? then before + [last.m] else before
  }

  class Queue<M> {
    var items: seq<M>
    /** Whether the one slot of the channel is filled. */
    var ready: bool

    // Where its users are: how many pushers are between their append and their signal, and whether
    // the consumer has taken the signal and not popped yet.
    var signalling: nat
    var taken: bool

    // Everything pushed and popped so far.
    ghost var pushed: seq<M>
    ghost var popped: seq<M>

    constructor ()
      ensures Valid() && pushed == [] && signalling == 0 && !taken
    {
      items, ready, pushed, popped, signalling, taken := [], false, [], [], 0, false;
    }

    /** First in, first out, none lost or repeated; and while something waits, somebody is about to
        say so or to look. */
    ghost predicate Valid()
      reads this
    {
      pushed == popped + items && (items != [] ==> ready || signalling > 0 || taken)
    }

    /** The first half of push, under the lock. */
    method Append(m: M)
      requires Valid()
      modifies this`items, this`pushed, this`signalling
      ensures Valid() && items == old(items) + [m] && pushed == old(pushed) + [m] && signalling == old(signalling) + 1
    {
      items := items + [m];
      pushed := pushed + [m];
      signalling := signalling + 1;
    }

    /** The second half: fill the slot, unless it is filled. */
    method Signal()
      requires Valid() && signalling > 0
      modifies this`ready, this`signalling
      ensures Valid() && ready && signalling == old(signalling) - 1
    {
      ready := true;
      signalling := signalling - 1;
    }

    /** The consumer receives from the channel. */
    method Take()
      requires Valid() && ready && !taken
      modifies this`ready, this`taken
      ensures Valid() && !ready && taken
    {
      ready := false;
      taken := true;
    }

    /** The consumer takes the oldest message, if there is one, and passes the signal on if more wait. */
    method Pop() returns (r: Option<M>)
      requires Valid() && taken
      modifies this`items, this`ready, this`popped, this`taken
      ensures Valid() && !taken
      ensures r == if old(items) == [] then None else Some(old(items)[0])
      ensures r.Some? ==> items == old(items)[1..] && popped == old(popped) + [r.value]
      ensures r.None? ==> items == [] && popped == old(popped)
      ensures ready == (old(ready) || items != [])
    {
      taken := false;
      if items == [] {
        return None;
      }
      r := Some(items[0]);
      popped := popped + [items[0]];
      items := items[1..];
      if items != [] {
        ready := true;
      }
    }

    /** Any interleaving of any number of pushers with the consumer; a step that is not enabled is
        skipped. Whenever nobody is in between, what waits is announced. */
    method Interleave(steps: seq<Step<M>>)
      requires Valid()
      modifies this
      ensures Valid() && pushed == old(pushed) + Appends(steps) && old(popped) <= popped <= pushed
      ensures signalling == 0 && !taken && items != [] ==> ready
    {
      for i := 0 to |steps|
        invariant Valid() && pushed == old(pushed) + Appends(steps[..i]) && old(popped) <= popped
      {
        assert steps[..i + 1][..i] == steps[..i];
        match steps[i] {
          case Append(m) => Append(m);
          case Signal =>
            if signalling > 0 {
              Signal();
            }
          case Take =>
            if ready && !taken {
              Take();
            }
          case Pop =>
            if taken {
              var _ := Pop();
            }
        }
      }
      assert steps[..|steps|] == steps;
    }

    /** The consumer left to itself handles everything that was pushed, in the order of the pushes. */
    method Serve(handled: seq<M>) returns (all: seq<M>)
      requires Valid() && signalling == 0 && !taken && handled == popped
      modifies this
      ensures Valid() && items == [] && pushed == old(pushed) && all == pushed
    {
      all := handled;
      while ready
        invariant Valid() && signalling == 0 && !taken && pushed == old(pushed) && all == popped
        decreases |items|, ready
      {
        Take();
        var m := Pop();
        if m.Some? {
          all := all + [m.value];
        }
      }
    }
  }
}
