/** What callers of the manager can rely on in every run, and runs that show why the belief needs
    its side condition. */
module SandboxRuns {
  import opened Wrappers
  import opened SandboxLife
  import opened SandboxSystem
  import opened SandboxInvariant
  import opened SandboxTiming
  import opened SandboxBelief
  import opened SandboxCalm

  // ---------------------------------------------------------------- one at a time

  /** Of all the goroutines a name ever had, at most one can still make a backend call, so at most
      one per-sandbox call is in flight for it. */
  lemma OneCallPerName(states: seq<System>, actions: seq<Action>, i: nat, d: nat, e: nat)
    requires IsRun(states, actions) && i < |states| && d < |states[i].ents| && e < |states[i].ents|
    requires NameOf(states[i], d) == NameOf(states[i], e) && Live(states[i].ents[d]) && Live(states[i].ents[e])
    ensures d == e
  {
    RunKeeps(states, actions, i);
  }

  /** The test in forget always holds: a destroyed entry is still the one its name leads to. */
  lemma ForgetTestHolds(states: seq<System>, actions: seq<Action>, i: nat)
    requires IsRun(states, actions) && i < |actions| && actions[i].Forget?
    ensures var e := PcOf(states[i], actions[i].p).e;
            var name := NameOf(states[i], e);
            && name in states[i].table && states[i].table[name] == e
            && states[i].ents[e].life.state == Destroyed
            && states[i + 1].table == states[i].table - {name}
  {
    RunKeeps(states, actions, i);
  }

  lemma OnlyAdoptAdds(s: System, a: Action)
    requires Enabled(s, a) && |s.ents| < |Next(s, a).ents|
    ensures a.Adopt? && !s.closing && NameOf(Next(s, a), |s.ents|) !in s.table
  {
  }

  lemma UnlistedMeansDestroyed(s: System, d: nat)
    requires Inv(s) && !s.closing && d < |s.ents| && NameOf(s, d) !in s.table
    ensures s.ents[d].life.state == Destroyed && !Live(s.ents[d])
    ensures forall p: nat :: p < |s.procs| && (PcOf(s, p).Awaiting? || PcOf(s, p).Forgetting?) ==> PcOf(s, p).e != d
  {
    assert InStep(s.ents[d], s.idle);
  }

  /** A name gets a fresh entry only when every entry it had before was destroyed, with that
      destroy answered and forgotten. */
  lemma FreshEntryAfterDestroy(states: seq<System>, actions: seq<Action>, i: nat, d: nat)
    requires IsRun(states, actions) && i < |actions| && |states[i].ents| < |states[i + 1].ents|
    requires d < |states[i].ents| && NameOf(states[i], d) == NameOf(states[i + 1], |states[i].ents|)
    ensures states[i].ents[d].life.state == Destroyed && !Live(states[i].ents[d])
    ensures forall p: nat :: p < |states[i].procs| && (PcOf(states[i], p).Awaiting? || PcOf(states[i], p).Forgetting?) ==>
              PcOf(states[i], p).e != d
  {
    RunKeeps(states, actions, i);
    OnlyAdoptAdds(states[i], actions[i]);
    UnlistedMeansDestroyed(states[i], d);
  }

  // ---------------------------------------------------------------- answers

  /** Every request a goroutine took is answered exactly once: a caller has one more taken than
      answered exactly while it waits, and then exactly one goroutine is serving it. */
  lemma AnsweredOnce(states: seq<System>, actions: seq<Action>, i: nat, p: nat)
    requires IsRun(states, actions) && i < |states| && p < |states[i].procs|
    ensures var s := states[i];
            && s.procs[p].taken == s.procs[p].answered + (if PcOf(s, p).Awaiting? then 1 else 0)
            && (PcOf(s, p).Awaiting? ==>
                  forall e: nat :: e < |s.ents| ==> (Client(s.ents[e].work) == Some(p) <==> e == PcOf(s, p).e))
  {
    RunKeeps(states, actions, i);
  }

  /** The replies still to come: how many backend calls stand between a client and its answer. */
  function CallsLeft(w: Work): nat {
    match w
    case Ensuring(_, _) => 2
    case Running(_, _) => 1
    case Halting(_) => 1
    case Removing(_, _) => 1
    case _ => 0
  }

  lemma ReturnAnswers(s: System, p: nat, ok: bool)
    requires Paired(s) && p < |s.procs| && PcOf(s, p).Awaiting? && PcOf(s, p).e < |s.ents|
    requires var w := s.ents[PcOf(s, p).e].work; w.Running? ==> w.since <= s.now
    ensures var e := PcOf(s, p).e;
            && Enabled(s, Return(e, ok, s.now))
            && var t := ReturnNext(s, e, ok, s.now);
               || t.procs[p].answered == s.procs[p].answered + 1
               || (t.procs[p] == s.procs[p] && CallsLeft(t.ents[e].work) < CallsLeft(s.ents[e].work))
  {
  }

  /** A waiting caller is never stuck behind anything but its own goroutine's backend call: in
      every reachable state that call can return, and it then has its answer or fewer calls to go. */
  lemma AnswerComes(states: seq<System>, actions: seq<Action>, i: nat, p: nat, ok: bool)
    requires IsRun(states, actions) && i < |states| && p < |states[i].procs| && PcOf(states[i], p).Awaiting?
    ensures var s := states[i];
            var e := PcOf(s, p).e;
            && Enabled(s, Return(e, ok, s.now))
            && var t := ReturnNext(s, e, ok, s.now);
               || t.procs[p].answered == s.procs[p].answered + 1
               || (t.procs[p] == s.procs[p] && CallsLeft(t.ents[e].work) < CallsLeft(s.ents[e].work))
  {
    RunKeeps(states, actions, i);
    ReturnAnswers(states[i], p, ok);
  }

  /** A caller turned away gets the reason the goroutine exited for: a destroyed sandbox, or a
      manager that is closing; nothing of its request was taken. */
  lemma TurnedAwayWithReason(states: seq<System>, actions: seq<Action>, i: nat)
    requires IsRun(states, actions) && i < |actions| && actions[i].TurnAway?
    requires !PcOf(states[i], actions[i].p).k.KPass?
    ensures var s, p := states[i], actions[i].p;
            var e := PcOf(s, p).e;
            && PcOf(states[i + 1], p) == Done(Failed(NotTaken(s.ents[e].work.why)))
            && (s.ents[e].work.why == WasDestroyed <==> s.ents[e].life.state == Destroyed)
            && (s.ents[e].work.why == WasShutDown ==> s.closing)
            && states[i + 1].procs[p].taken == s.procs[p].taken
  {
    RunKeeps(states, actions, i);
    assert InStep(states[i].ents[PcOf(states[i], actions[i].p).e], states[i].idle);
  }

  // ---------------------------------------------------------------- shutdown

  /** The backend is closed at most once, and nothing is noted after it. */
  ghost predicate ClosedLast(s: System) {
    && (s.closeAnswer.None? ==> forall i :: 0 <= i < |s.log| ==> s.log[i].kind != BackendClosed)
    && (forall i :: 0 <= i < |s.log| && s.log[i].kind == BackendClosed ==> i == |s.log| - 1)
  }

  /** A mark is the backend's closing, by the caller draining, or a live goroutine's. */
  lemma MarkMeans(s: System, a: Action)
    requires Enabled(s, a) && Next(s, a).log != s.log
    ensures |Next(s, a).log| == |s.log| + 1 && Next(s, a).log[..|s.log|] == s.log
    ensures Next(s, a).log[|s.log|].kind == BackendClosed ==>
              a.CloseBackend? && HasPc(s, a.p) && PcOf(s, a.p).Draining? && Next(s, a).closeAnswer.Some?
    ensures Next(s, a).log[|s.log|].kind != BackendClosed ==>
              Next(s, a).closeAnswer == s.closeAnswer && exists e: nat :: e < |s.ents| && Live(s.ents[e])
  {
    if a.Take? {
      assert PcOf(s, a.p).e < |s.ents| && Live(s.ents[PcOf(s, a.p).e]);
    } else if a.Return? {
      assert Live(s.ents[a.e]);
    }
  }

  lemma AnswerStands(s: System, a: Action)
    requires Enabled(s, a) && s.closeAnswer.Some?
    ensures Next(s, a).closeAnswer.Some?
  {
  }

  lemma ClosedLastStep(s: System, a: Action)
    requires Drained(s) && ClosedLast(s) && Enabled(s, a)
    ensures ClosedLast(Next(s, a))
  {
    var t := Next(s, a);
    if s.closeAnswer.Some? {
      AnswerStands(s, a);
    }
    if t.log != s.log {
      MarkMeans(s, a);
      assert forall i :: 0 <= i < |s.log| ==> t.log[i] == t.log[..|s.log|][i];
    }
  }

  lemma {:induction false} ClosedLastRun(states: seq<System>, actions: seq<Action>, i: nat)
    requires IsRun(states, actions) && i < |states|
    ensures ClosedLast(states[i])
  {
    if i > 0 {
      ClosedLastRun(states, actions, i - 1);
      RunKeeps(states, actions, i - 1);
      ClosedLastStep(states[i - 1], actions[i - 1]);
    }
  }

  /** Shutdown drains: the backend's Close is called at most once, no EnsureReady, Exec, Stop or
      Destroy begins or ends after it, none is in flight when it happens, and no entry is left that
      could start one; every Close caller that returned got the same answer. */
  lemma CloseDrains(states: seq<System>, actions: seq<Action>, i: nat, m: nat)
    requires IsRun(states, actions) && i < |states|
    requires m < |states[i].log| && states[i].log[m].kind == BackendClosed
    ensures m == |states[i].log| - 1
    ensures forall e: nat :: e < |states[i].ents| ==> !Live(states[i].ents[e]) && Client(states[i].ents[e].work).None?
    ensures forall p: nat, q: nat ::
              (p < |states[i].procs| && PcOf(states[i], p).Done? && PcOf(states[i], p).out.CloseSaid?
               && q < |states[i].procs| && PcOf(states[i], q).Done? && PcOf(states[i], q).out.CloseSaid?)
              ==> PcOf(states[i], p) == PcOf(states[i], q)
  {
    RunKeeps(states, actions, i);
    ClosedLastRun(states, actions, i);
  }

  lemma AdoptRefused(s: System, p: nat)
    requires s.closing && Enabled(s, Adopt(p))
    ensures AdoptNext(s, p).ents == s.ents && AdoptNext(s, p).table == s.table
  {
  }

  /** An adoption racing Close is refused, or its goroutine is among those Close waits for. */
  lemma AdoptionVersusClose(states: seq<System>, actions: seq<Action>, i: nat)
    requires IsRun(states, actions) && i < |actions| && states[i].closing
    ensures actions[i].Adopt? ==> states[i + 1].ents == states[i].ents && states[i + 1].table == states[i].table
    ensures forall p: nat, e: nat ::
              (p < |states[i].procs| && PcOf(states[i], p).Draining? && e < |states[i].ents| && Live(states[i].ents[e]))
              ==> e in PcOf(states[i], p).known
  {
    if actions[i].Adopt? {
      AdoptRefused(states[i], actions[i].p);
    }
    RunKeeps(states, actions, i);
  }

  // ---------------------------------------------------------------- why the side condition

  function Start(box: Box): System {
    System(1, "", 0, map["x" := box], map[], [], [], None, false, false, None, None, [])
  }

  /** The pass waits while a Destroy of x, listed as running, is under way. */
  lemma DestroyMeanwhile() returns (states: seq<System>, actions: seq<Action>)
    ensures IsRun(states, actions)
    ensures var s := states[|actions|];
            && s.idle == 1 && !s.closing && s.boxes == map["x" := Box("", true)] && s.table == map["x" := 0]
            && |s.procs| == 2 && |s.ents| == 1 && s.ents[0].life.spec.name == "x" && s.ents[0].work == Removing(1, Unknown)
            && s.procs[0].pc == Walking([Found("x", Box("", true))], ThenReport)
  {
    states, actions := Listed(Box("", true));
    states, actions := Then(states, actions, Call(DestroyCalled("x")));
    states, actions := Then(states, actions, Adopt(1));
    states, actions := Then(states, actions, Take(1));
  }

  lemma DestroyedMeanwhile() returns (states: seq<System>, actions: seq<Action>)
    ensures IsRun(states, actions)
    ensures var s := states[|actions|];
            && s.idle == 1 && !s.closing && s.boxes == map[] && s.table == map[] && |s.procs| == 2 && |s.ents| == 1
            && s.procs[0].pc == Walking([Found("x", Box("", true))], ThenReport)
  {
    states, actions := DestroyMeanwhile();
    states, actions := Then(states, actions, Return(0, true, 0));
    states, actions := Then(states, actions, Forget(1));
  }

  /** The sandbox and its entry are gone; the pass makes another for what it was told. */
  lemma AdoptedAnyway() returns (states: seq<System>, actions: seq<Action>)
    ensures IsRun(states, actions)
    ensures var s := states[|actions|];
            && s.idle == 1 && s.boxes == map[] && |s.procs| == 2 && |s.ents| == 2
            && s.ents[1] == Ent(NewLife(Spec("x", "")), Selecting)
            && s.procs[0].pc == Asking(1, RObserve(Ready), KPass([], ThenReport))
  {
    states, actions := DestroyedMeanwhile();
    assert [Found("x", Box("", true))][1..] == [];
    states, actions := Then(states, actions, Adopt(0));
  }

  /** A Destroy during a pass: the pass gets its listing of x running, x is destroyed and
      forgotten, and the pass then makes a new entry and has it believe x is running. */
  lemma StaleAfterDestroy() returns (states: seq<System>, actions: seq<Action>)
    ensures IsRun(states, actions)
    ensures var s := states[|actions|];
            && |s.ents| == 2 && s.ents[1].work.Selecting? && s.ents[1].life.state == Ready
            && NameOf(s, 1) == "x" && "x" !in s.boxes && !Believed(s)
  {
    states, actions := AdoptedAnyway();
    states, actions := Then(states, actions, Take(0));
    assert !BelievedEnt(states[|actions|].ents[1], 1, map[]);
  }

  /** The pass has made an entry for x, listed as stopped, when the manager begins to close. */
  lemma ClosingMeanwhile() returns (states: seq<System>, actions: seq<Action>)
    ensures IsRun(states, actions)
    ensures var s := states[|actions|];
            && s.idle == 1 && s.now == 0 && s.closing && s.boxes == map["x" := Box("", false)]
            && |s.procs| == 2 && |s.ents| == 1 && s.ents[0] == Ent(NewLife(Spec("x", "")), Selecting)
            && s.procs[0].pc == Asking(0, RObserve(Stopped), KPass([], ThenReport))
  {
    states, actions := Listed(Box("", false));
    assert [Found("x", Box("", false))][1..] == [];
    states, actions := Then(states, actions, Adopt(0));
    states, actions := Then(states, actions, Call(CloseCalled));
    states, actions := Then(states, actions, BeginClose(1));
  }

  /** A command that came after does not wait for the pass, and has started x. */
  lemma StartedMeanwhile() returns (states: seq<System>, actions: seq<Action>)
    ensures IsRun(states, actions)
    ensures var s := states[|actions|];
            && s.idle == 1 && "x" in s.boxes && s.boxes["x"].running
            && |s.procs| == 3 && |s.ents| == 1 && s.ents[0].work == Running(2, 0) && NameOf(s, 0) == "x"
            && s.now == 0 && s.procs[0].pc == Asking(0, RObserve(Stopped), KPass([], ThenReport))
  {
    states, actions := ClosingMeanwhile();
    states, actions := Then(states, actions, Call(ExecCalled(0)));
    states, actions := Then(states, actions, Gate(2));
    states, actions := Started(states, actions);
  }

  /** The command is taken, and x is made to run for it. */
  lemma Started(states: seq<System>, actions: seq<Action>) returns (states': seq<System>, actions': seq<Action>)
    requires IsRun(states, actions)
    requires var s := states[|actions|];
             && s.idle == 1 && s.now == 0 && s.boxes == map["x" := Box("", false)] && Enabled(s, Take(2))
             && |s.procs| == 3 && |s.ents| == 1 && s.ents[0] == Ent(NewLife(Spec("x", "")), Selecting)
             && s.procs[0].pc == Asking(0, RObserve(Stopped), KPass([], ThenReport)) && s.procs[2].pc == Asking(0, RExec, KExec)
    ensures IsRun(states', actions')
    ensures var s := states'[|actions'|];
            && s.idle == 1 && "x" in s.boxes && s.boxes["x"].running
            && |s.procs| == 3 && |s.ents| == 1 && s.ents[0].work == Running(2, 0) && NameOf(s, 0) == "x"
            && s.now == 0 && s.procs[0].pc == Asking(0, RObserve(Stopped), KPass([], ThenReport))
  {
    states', actions' := Then(states, actions, Take(2));
    assert states'[|actions'|].ents[0].work == Ensuring(2, Unknown);
    states', actions' := Then(states', actions', Return(0, true, 0));
  }

  /** Close during a pass: x is listed stopped and given an entry; once the manager is closing a
      command no longer waits for the pass, starts x, and the pass then records it as stopped. */
  lemma StaleAfterClose() returns (states: seq<System>, actions: seq<Action>)
    ensures IsRun(states, actions)
    ensures var s := states[|actions|];
            && |s.ents| == 1 && s.ents[0].work.Selecting? && s.ents[0].life.state == Stopped
            && NameOf(s, 0) == "x" && "x" in s.boxes && s.boxes["x"].running && !Believed(s)
  {
    states, actions := StartedMeanwhile();
    states, actions := Then(states, actions, Return(0, true, 0));
    assert states[|actions|].ents[0].work == Selecting;
    states, actions := Then(states, actions, Take(0));
    assert !BelievedEnt(states[|actions|].ents[0], 1, states[|actions|].boxes);
  }

  lemma Then(states: seq<System>, actions: seq<Action>, a: Action) returns (states': seq<System>, actions': seq<Action>)
    requires IsRun(states, actions) && Enabled(states[|actions|], a)
    ensures IsRun(states', actions') && |actions'| == |actions| + 1 && states <= states' && actions <= actions'
    ensures states'[|actions'|] == Next(states[|actions|], a)
  {
    states', actions' := states + [Next(states[|actions|], a)], actions + [a];
  }

  /** A Reconcile call that has its listing. */
  lemma Listed(box: Box) returns (states: seq<System>, actions: seq<Action>)
    ensures IsRun(states, actions)
    ensures states[|actions|] == Start(box).(procs := [Proc(Walking([Found("x", box)], ThenReport), 0, 0)], adoptMu := Some(0))
  {
    states, actions := [Start(box)], [];
    states, actions := Then(states, actions, Call(ReconcileCalled));
    states, actions := Then(states, actions, Gate(0));
    states, actions := Then(states, actions, Lock(0));
    var found := [Found("x", box)];
    assert found[0].name == "x";
    assert IsListing(found, states[|actions|].boxes);
    states, actions := Then(states, actions, ListReturns(0, found));
  }
}
