/** What the manager does for its callers in ordinary cases, from the call to the answer: in every
    run, each of these goes as told, field by field. */
module SandboxStories {
  import opened Wrappers
  import opened SandboxLife
  import opened SandboxSystem
  import opened SandboxInvariant
  import opened SandboxTiming
  import opened SandboxRuns

  // ---------------------------------------------------------------- the idle clock

  /** A wakeup that is taken stops the sandbox exactly when it is Ready and the wakeup is for the
      deadline on record. */
  lemma WakeupDecides(states: seq<System>, actions: seq<Action>, i: nat)
    requires IsRun(states, actions) && i < |actions| && actions[i].Take? && PcOf(states[i], actions[i].p).req.RIdle?
    ensures var s, t, p := states[i], states[i + 1], actions[i].p;
            var Asking(e, req, _) := PcOf(s, p);
            var l := s.ents[e].life;
            if l.state == Ready && l.due == Some(req.due) then
              && t.ents[e].life.state == Stopping && t.ents[e].work == Halting(p)
              && t.log == s.log + [Mark(StopBegan, l.spec.name, s.now)]
            else
              t.ents == s.ents && t.log == s.log && PcOf(t, p) == Done(Fine)
  {
    RunKeeps(states, actions, i);
  }

  function DueOf(s: System, e: nat): Option<Time> {
    if e < |s.ents| then s.ents[e].life.due else None
  }

  /** What may take a deadline off the record: a command or a Destroy is taken, the sandbox was
      stopped, or the manager closes. */
  predicate TakesOff(s: System, a: Action, e: nat)
    requires Enabled(s, a)
  {
    match a
    case Quit(d) => d == e
    case Return(d, ok, _) => d == e && ok && s.ents[e].work.Halting?
    case Take(p) => PcOf(s, p).e == e && (PcOf(s, p).req.RExec? || PcOf(s, p).req.RDestroy?)
    case _ => false
  }

  predicate DueSet(s: System, a: Action, t: System, e: nat)
    requires Enabled(s, a)
  {
    DueOf(t, e) != DueOf(s, e) ==> if DueOf(t, e).Some? then DueOf(t, e).value == s.now + s.idle else TakesOff(s, a, e)
  }

  lemma DueTaken(s: System, p: nat, e: nat)
    requires Enabled(s, Take(p)) && InStep(s.ents[PcOf(s, p).e], s.idle)
    ensures DueSet(s, Take(p), TakeNext(s, p), e)
  {
  }

  lemma DueReturned(s: System, e: nat, ok: bool, ended: Time, d: nat)
    requires Enabled(s, Return(e, ok, ended)) && InStep(s.ents[e], s.idle)
    ensures DueSet(s, Return(e, ok, ended), ReturnNext(s, e, ok, ended), d)
  {
  }

  lemma DueExit(s: System, a: Action, e: nat)
    requires Enabled(s, a) && (a.Leave? || a.Quit?) && InStep(s.ents[a.e], s.idle)
    ensures DueSet(s, a, Next(s, a), e)
  {
  }

  lemma DueAdopted(s: System, p: nat, e: nat)
    requires Enabled(s, Adopt(p))
    ensures DueSet(s, Adopt(p), AdoptNext(s, p), e)
  {
  }

  lemma DueElse(s: System, a: Action, e: nat)
    requires Enabled(s, a) && !a.Take? && !a.Return? && !a.Adopt? && !a.Leave? && !a.Quit?
    ensures Next(s, a).ents == s.ents
  {
  }

  lemma DueStep(s: System, a: Action, e: nat)
    requires Inv(s) && Enabled(s, a)
    ensures DueSet(s, a, Next(s, a), e)
  {
    match a
    case Take(p) =>
      assert InStep(s.ents[PcOf(s, p).e], s.idle);
      DueTaken(s, p, e);
    case Return(d, ok, ended) =>
      assert InStep(s.ents[d], s.idle);
      DueReturned(s, d, ok, ended, e);
    case Adopt(p) => DueAdopted(s, p, e);
    case Leave(d) =>
      assert InStep(s.ents[d], s.idle);
      DueExit(s, a, e);
    case Quit(d) =>
      assert InStep(s.ents[d], s.idle);
      DueExit(s, a, e);
    case _ => DueElse(s, a, e);
  }

  /** A deadline that is set is one window away, and one on record goes only for those reasons. */
  lemma DeadlineChanges(states: seq<System>, actions: seq<Action>, i: nat, e: nat)
    requires IsRun(states, actions) && i < |actions| && DueOf(states[i + 1], e) != DueOf(states[i], e)
    ensures if DueOf(states[i + 1], e).Some? then DueOf(states[i + 1], e).value == states[i].now + states[i].idle
            else TakesOff(states[i], actions[i], e)
  {
    RunKeeps(states, actions, i);
    DueStep(states[i], actions[i], e);
  }

  /** No deadline is more than a window away. */
  lemma {:induction false} DeadlineNear(states: seq<System>, actions: seq<Action>, i: nat, e: nat)
    requires IsRun(states, actions) && i < |states| && DueOf(states[i], e).Some?
    ensures DueOf(states[i], e).value <= states[i].now + states[i].idle
  {
    if i > 0 {
      TimePasses(states[i - 1], actions[i - 1]);
      if DueOf(states[i], e) == DueOf(states[i - 1], e) {
        DeadlineNear(states, actions, i - 1, e);
      } else {
        DeadlineChanges(states, actions, i - 1, e);
      }
    }
  }

  lemma TimePasses(s: System, a: Action)
    requires Enabled(s, a)
    ensures s.now <= Next(s, a).now && Next(s, a).idle == s.idle
  {
  }

  /** The deadline comes, and its wakeup asks. */
  lemma Wakes(states: seq<System>, actions: seq<Action>, e: nat) returns (states': seq<System>, actions': seq<Action>)
    requires IsRun(states, actions)
    requires var s := states[|actions|];
             e < |s.ents| && s.ents[e].work.Selecting? && s.ents[e].life.state == Ready && s.idle > 0
    ensures IsRun(states', actions') && states <= states' && actions <= actions'
    ensures var s, t := states[|actions|], states'[|actions'|];
            && s.ents[e].life.due.Some? && s.now <= t.now <= s.now + s.idle && t.idle == s.idle
            && t.ents == s.ents && t.boxes == s.boxes && t.log == s.log
            && t.procs == s.procs + [Proc(Asking(e, RIdle(s.ents[e].life.due.value), KIdle), 0, 0)]
  {
    var s := states[|actions|];
    RunKeeps(states, actions, |actions|);
    assert InStep(s.ents[e], s.idle);
    DeadlineNear(states, actions, |actions|, e);
    var due := s.ents[e].life.due.value;
    states', actions' := Then(states, actions, Tick(if s.now < due then due - s.now else 0));
    states', actions' := Then(states', actions', Fire(e));
  }

  lemma WakeupTaken(s: System, e: nat, p: nat)
    requires e < |s.ents| && p < |s.procs| && s.ents[e].life.state == Ready && s.ents[e].life.due.Some?
    requires PcOf(s, p) == Asking(e, RIdle(s.ents[e].life.due.value), KIdle)
    ensures var t := TakeNext(s, p);
            && t.now == s.now && t.boxes == s.boxes && |t.procs| == |s.procs| && |t.ents| == |s.ents|
            && t.ents[e] == Ent(WithState(s.ents[e].life, Stopping), Halting(p))
            && t.log == s.log + [Mark(StopBegan, NameOf(s, e), s.now)]
  {
  }

  /** Compute that nobody uses is released within a window: wherever a run has got to, a Ready
      sandbox has a wakeup that, left alone, comes no later than that and has it stopped. */
  lemma IdleStops(states: seq<System>, actions: seq<Action>, e: nat) returns (states': seq<System>, actions': seq<Action>)
    requires IsRun(states, actions)
    requires var s := states[|actions|];
             e < |s.ents| && s.ents[e].work.Selecting? && s.ents[e].life.state == Ready && s.idle > 0
    ensures IsRun(states', actions') && states <= states' && actions <= actions'
    ensures var s, t := states[|actions|], states'[|actions'|];
            && |t.ents| == |s.ents| && t.now <= s.now + s.idle
            && t.ents[e].work.Selecting? && t.ents[e].life.state == Stopped && t.ents[e].life.due.None?
            && t.log == s.log + [Mark(StopBegan, NameOf(s, e), t.now)]
            && (NameOf(s, e) in t.boxes ==> !t.boxes[NameOf(s, e)].running)
  {
    states', actions' := Wakes(states, actions, e);
    var p := |states[|actions|].procs|;
    WakeupTaken(states'[|actions'|], e, p);
    states', actions' := Then(states', actions', Take(p));
    states', actions' := Then(states', actions', Return(e, true, 0));
  }

  // ---------------------------------------------------------------- a command

  /** Caller p has a command for entry e, which is free to take it. */
  predicate AsksExec(s: System, p: nat, e: nat) {
    && p < |s.procs| && e < |s.ents| && s.procs[p].pc == Asking(e, RExec, KExec)
    && s.ents[e].work.Selecting? && s.ents[e].life.state in {Unknown, Ready, Stopped}
  }

  /** A command's call, in flight since the time given, returns: its caller has the answer, the
      sandbox is Ready, was used last when the command ended, and has a full window from then. */
  predicate ExecEnds(s: System, t: System, p: nat, e: nat, ok: bool) {
    && e < |s.ents| && |t.ents| == |s.ents| && p < |t.procs|
    && t.procs[p].pc == Done(if ok then Fine else Failed(FromBackend))
    && t.ents[e].work == Selecting && t.ents[e].life.state == Ready && t.ents[e].life.lastExec == Some(t.now)
    && t.ents[e].life.due == (if s.idle > 0 then Some(t.now + s.idle) else None)
  }

  lemma ExecReturns(s: System, p: nat, e: nat, since: Time, ok: bool)
    requires p < |s.procs| && e < |s.ents| && s.ents[e].work == Running(p, since) && since <= s.now
    ensures Enabled(s, Return(e, ok, s.now))
    ensures var t := ReturnNext(s, e, ok, s.now);
            && ExecEnds(s, t, p, e, ok) && t.now == s.now && t.boxes == s.boxes
            && t.log == s.log + [Mark(ExecEnded, NameOf(s, e), s.now)]
  {
  }

  /** A call in flight returns after a while. */
  lemma Ends(states: seq<System>, actions: seq<Action>, p: nat, e: nat, since: Time, ok: bool, long: nat)
    returns (states': seq<System>, actions': seq<Action>)
    requires IsRun(states, actions)
    requires var s := states[|actions|];
             p < |s.procs| && e < |s.ents| && s.ents[e].work == Running(p, since) && since <= s.now
    ensures IsRun(states', actions') && states <= states' && actions <= actions'
    ensures var s, t := states[|actions|], states'[|actions'|];
            && ExecEnds(s, t, p, e, ok) && t.now == s.now + long && t.boxes == s.boxes
            && t.log == s.log + [Mark(ExecEnded, NameOf(s, e), t.now)]
  {
    states', actions' := Then(states, actions, Tick(long));
    ExecReturns(states'[|actions'|], p, e, since, ok);
    states', actions' := Then(states', actions', Return(e, ok, states'[|actions'|].now));
  }

  lemma ExecBegins(s: System, p: nat, e: nat)
    requires AsksExec(s, p, e) && s.ents[e].life.state == Ready
    ensures var t := TakeNext(s, p);
            && |t.ents| == |s.ents| && |t.procs| == |s.procs| && t.now == s.now && t.idle == s.idle && t.boxes == s.boxes
            && t.ents[e].work == Running(p, s.now) && NameOf(t, e) == NameOf(s, e)
            && t.log == s.log + [Mark(ExecBegan, NameOf(s, e), s.now)]
  {
  }

  /** On a Ready sandbox a command runs at once, as one call of the backend. */
  lemma CommandOnReady(states: seq<System>, actions: seq<Action>, p: nat, e: nat, ok: bool, long: nat)
    returns (states': seq<System>, actions': seq<Action>)
    requires IsRun(states, actions) && AsksExec(states[|actions|], p, e) && states[|actions|].ents[e].life.state == Ready
    ensures IsRun(states', actions') && states <= states' && actions <= actions'
    ensures var s, t := states[|actions|], states'[|actions'|];
            && ExecEnds(s, t, p, e, ok) && t.now == s.now + long && t.boxes == s.boxes
            && t.log == s.log + [Mark(ExecBegan, NameOf(s, e), s.now)] + [Mark(ExecEnded, NameOf(s, e), t.now)]
  {
    var s := states[|actions|];
    ExecBegins(s, p, e);
    states', actions' := Then(states, actions, Take(p));
    states', actions' := Ends(states', actions', p, e, s.now, ok, long);
  }

  /** On any other the backend is asked to make it ready first. If that fails nothing has changed
      but the log, and the caller is told; the command has not run. */
  lemma CommandNotPrepared(states: seq<System>, actions: seq<Action>, p: nat, e: nat)
    returns (states': seq<System>, actions': seq<Action>)
    requires IsRun(states, actions) && AsksExec(states[|actions|], p, e) && states[|actions|].ents[e].life.state != Ready
    ensures IsRun(states', actions') && states <= states' && actions <= actions'
    ensures var s, t := states[|actions|], states'[|actions'|];
            && |t.ents| == |s.ents| && |t.procs| == |s.procs|
            && t.procs[p].pc == Done(Failed(FromBackend)) && t.boxes == s.boxes
            && t.ents[e].work == Selecting && t.ents[e].life.state == s.ents[e].life.state
            && t.ents[e].life.lastExec == s.ents[e].life.lastExec && t.ents[e].life.due.None?
            && t.log == s.log + [Mark(EnsureBegan, NameOf(s, e), s.now)]
  {
    states', actions' := Then(states, actions, Take(p));
    states', actions' := Then(states', actions', Return(e, false, 0));
  }

  /** The command's call begins once the sandbox is ready. */
  lemma Readies(states: seq<System>, actions: seq<Action>, p: nat, e: nat) returns (states': seq<System>, actions': seq<Action>)
    requires IsRun(states, actions) && AsksExec(states[|actions|], p, e) && states[|actions|].ents[e].life.state != Ready
    ensures IsRun(states', actions') && states <= states' && actions <= actions'
    ensures var s, t, name := states[|actions|], states'[|actions'|], NameOf(states[|actions|], e);
            && |t.ents| == |s.ents| && |t.procs| == |s.procs| && t.now == s.now && t.idle == s.idle
            && t.ents[e].work == Running(p, s.now) && NameOf(t, e) == name
            && t.boxes.Keys == s.boxes.Keys + {name} && t.boxes[name].running
            && t.log == s.log + [Mark(EnsureBegan, name, s.now)] + [Mark(ExecBegan, name, s.now)]
  {
    var s := states[|actions|];
    states', actions' := Then(states, actions, Take(p));
    assert states'[|actions'|].ents[e].work == Ensuring(p, s.ents[e].life.state);
    states', actions' := Then(states', actions', Return(e, true, 0));
  }

  lemma CommandPrepared(states: seq<System>, actions: seq<Action>, p: nat, e: nat, ok: bool, long: nat)
    returns (states': seq<System>, actions': seq<Action>)
    requires IsRun(states, actions) && AsksExec(states[|actions|], p, e) && states[|actions|].ents[e].life.state != Ready
    ensures IsRun(states', actions') && states <= states' && actions <= actions'
    ensures var s, t, name := states[|actions|], states'[|actions'|], NameOf(states[|actions|], e);
            && ExecEnds(s, t, p, e, ok) && t.now == s.now + long
            && t.boxes.Keys == s.boxes.Keys + {name} && t.boxes[name].running
            && t.log == s.log + [Mark(EnsureBegan, name, s.now)] + [Mark(ExecBegan, name, s.now)] + [Mark(ExecEnded, name, t.now)]
  {
    var s := states[|actions|];
    states', actions' := Readies(states, actions, p, e);
    states', actions' := Ends(states', actions', p, e, s.now, ok, long);
  }

  // ---------------------------------------------------------------- a destroy

  /** Caller p has a Destroy for entry e, which its name leads to and which is free to take it. */
  predicate AsksDestroy(s: System, p: nat, e: nat) {
    && p < |s.procs| && e < |s.ents| && s.procs[p].pc == Asking(e, RDestroy, KDestroy)
    && s.ents[e].work.Selecting? && s.ents[e].life.state in {Unknown, Ready, Stopped}
  }

  lemma DestroyBegins(s: System, p: nat, e: nat)
    requires AsksDestroy(s, p, e)
    ensures var t := TakeNext(s, p);
            && |t.ents| == |s.ents| && |t.procs| == |s.procs| && t.now == s.now && t.idle == s.idle
            && t.boxes == s.boxes && t.table == s.table && NameOf(t, e) == NameOf(s, e)
            && t.ents[e].work == Removing(p, s.ents[e].life.state)
            && t.log == s.log + [Mark(DestroyBegan, NameOf(s, e), s.now)]
  {
  }

  lemma RefusalReturns(s: System, p: nat, e: nat, prior: State)
    requires p < |s.procs| && e < |s.ents| && s.ents[e].work == Removing(p, prior) && s.ents[e].life.due.None?
    ensures var t := ReturnNext(s, e, false, 0);
            && |t.ents| == |s.ents| && |t.procs| == |s.procs| && t.procs[p].pc == Done(Failed(FromBackend))
            && t.boxes == s.boxes && t.table == s.table && t.log == s.log && t.now == s.now
            && t.ents[e].work == Selecting && t.ents[e].life.state == prior
            && t.ents[e].life.due == if prior == Ready && s.idle > 0 then Some(s.now + s.idle) else None
  {
  }

  /** A Destroy the backend refuses changes nothing but the window, which starts again. */
  lemma DestroyRefused(states: seq<System>, actions: seq<Action>, p: nat, e: nat)
    returns (states': seq<System>, actions': seq<Action>)
    requires IsRun(states, actions) && AsksDestroy(states[|actions|], p, e)
    ensures IsRun(states', actions') && states <= states' && actions <= actions'
    ensures var s, t := states[|actions|], states'[|actions'|];
            && |t.ents| == |s.ents| && |t.procs| == |s.procs|
            && t.procs[p].pc == Done(Failed(FromBackend)) && t.boxes == s.boxes && t.table == s.table
            && t.ents[e].work == Selecting && t.ents[e].life.state == s.ents[e].life.state
            && t.ents[e].life.due == (if s.ents[e].life.state == Ready && s.idle > 0 then Some(t.now + s.idle) else None)
            && t.log == s.log + [Mark(DestroyBegan, NameOf(s, e), s.now)]
  {
    DestroyBegins(states[|actions|], p, e);
    states', actions' := Then(states, actions, Take(p));
    assert states'[|actions'|].ents[e].life.due.None?;
    RefusalReturns(states'[|actions'|], p, e, states[|actions|].ents[e].life.state);
    states', actions' := Then(states', actions', Return(e, false, 0));
  }

  /** The backend has removed it. */
  lemma Removed(states: seq<System>, actions: seq<Action>, p: nat, e: nat) returns (states': seq<System>, actions': seq<Action>)
    requires IsRun(states, actions) && AsksDestroy(states[|actions|], p, e)
    ensures IsRun(states', actions') && states <= states' && actions <= actions'
    ensures var s, t, name := states[|actions|], states'[|actions'|], NameOf(states[|actions|], e);
            && |t.ents| == |s.ents| && |t.procs| == |s.procs| && t.procs[p].pc == Forgetting(e)
            && t.boxes == s.boxes - {name} && t.table == s.table
            && t.ents[e].work == Leaving && t.ents[e].life.state == Destroyed && NameOf(t, e) == name
            && t.log == s.log + [Mark(DestroyBegan, name, s.now)]
  {
    states', actions' := Then(states, actions, Take(p));
    assert states'[|actions'|].ents[e].work == Removing(p, states[|actions|].ents[e].life.state);
    states', actions' := Then(states', actions', Return(e, true, 0));
  }

  /** One that succeeds removes the sandbox and frees its name, and the entry's goroutine ends. */
  lemma DestroyRemoves(states: seq<System>, actions: seq<Action>, p: nat, e: nat)
    returns (states': seq<System>, actions': seq<Action>)
    requires IsRun(states, actions) && AsksDestroy(states[|actions|], p, e)
    ensures IsRun(states', actions') && states <= states' && actions <= actions'
    ensures var s, t, name := states[|actions|], states'[|actions'|], NameOf(states[|actions|], e);
            && |t.ents| == |s.ents| && |t.procs| == |s.procs|
            && t.procs[p].pc == Done(Fine) && t.boxes == s.boxes - {name} && t.table == s.table - {name}
            && t.ents[e].work == Gone(WasDestroyed) && t.ents[e].life.state == Destroyed
            && t.log == s.log + [Mark(DestroyBegan, name, s.now)]
  {
    states', actions' := Removed(states, actions, p, e);
    ForgetFinds(states', actions', p, e);
    states', actions' := Then(states', actions', Forget(p));
    states', actions' := Then(states', actions', Leave(e));
  }

  lemma ForgetFinds(states: seq<System>, actions: seq<Action>, p: nat, e: nat)
    requires IsRun(states, actions) && p < |states[|actions|].procs| && PcOf(states[|actions|], p) == Forgetting(e)
    ensures var s := states[|actions|];
            e < |s.ents| && NameOf(s, e) in s.table && s.table[NameOf(s, e)] == e
  {
    RunKeeps(states, actions, |actions|);
  }

  // ---------------------------------------------------------------- names

  /** Open gives a handle on the entry its name leads to: the one there is, whatever else the name
      was opened with before, or a fresh one with nothing known of it. Once the manager closes it
      is refused. */
  lemma OpenBinds(states: seq<System>, actions: seq<Action>, i: nat)
    requires IsRun(states, actions) && i < |actions| && actions[i].Adopt? && PcOf(states[i], actions[i].p).OpenCalled?
    ensures var s, t, p := states[i], states[i + 1], actions[i].p;
            var name := PcOf(s, p).name;
            t.boxes == s.boxes && t.log == s.log &&
            if s.closing then PcOf(t, p) == Done(Failed(Refused)) && t.ents == s.ents
            else && name in t.table && t.table[name] < |t.ents| && NameOf(t, t.table[name]) == name
                 && PcOf(t, p) == Done(Opened(t.table[name])) && s.ents <= t.ents
                 && (name in s.table ==> t.ents == s.ents && t.table == s.table)
                 && (name !in s.table ==>
                       && t.table[name] == |s.ents| && |t.ents| == |s.ents| + 1 && t.table.Keys == s.table.Keys + {name}
                       && t.ents[|s.ents|].work == Selecting && t.ents[|s.ents|].life.spec == Spec(name, s.image)
                       && t.ents[|s.ents|].life.state == Unknown && t.ents[|s.ents|].life.due.None?
                       && t.ents[|s.ents|].life.lastExec.None?)
  {
    RunKeeps(states, actions, i);
  }

  /** Destroy asks the entry its name leads to. */
  lemma DestroyAsks(states: seq<System>, actions: seq<Action>, i: nat)
    requires IsRun(states, actions) && i < |actions| && actions[i].Adopt? && PcOf(states[i], actions[i].p).DestroyCalled?
    ensures var s, t, p := states[i], states[i + 1], actions[i].p;
            var name := PcOf(s, p).name;
            if s.closing then PcOf(t, p) == Done(Failed(Refused)) && t.ents == s.ents
            else && name in t.table && t.table[name] < |t.ents| && NameOf(t, t.table[name]) == name
                 && PcOf(t, p) == Asking(t.table[name], RDestroy, KDestroy)
  {
    RunKeeps(states, actions, i);
  }

  // ---------------------------------------------------------------- a pass

  /** A pass leaves what the manager tracks as it is; a name it does not know gets an entry, made from
      what was found, which is told whether it was found running. */
  lemma PassAdopts(states: seq<System>, actions: seq<Action>, i: nat)
    requires IsRun(states, actions) && i < |actions| && actions[i].Adopt? && PcOf(states[i], actions[i].p).Walking?
    requires !states[i].closing
    ensures var s, t, p := states[i], states[i + 1], actions[i].p;
            var Walking(todo, after) := PcOf(s, p);
            var name := todo[0].name;
            if name in s.table then t.ents == s.ents && t.table == s.table && PcOf(t, p) == Walking(todo[1..], after)
            else && t.table == s.table[name := |s.ents|] && |t.ents| == |s.ents| + 1 && t.ents[..|s.ents|] == s.ents
                 && t.ents[|s.ents|].life.spec == Spec(name, todo[0].box.image) && t.ents[|s.ents|].life.state == Unknown
                 && PcOf(t, p) == Asking(|s.ents|, RObserve(if todo[0].box.running then Ready else Stopped), KPass(todo[1..], after))
  {
    RunKeeps(states, actions, i);
  }

  lemma ObservationTaken(s: System, p: nat)
    requires Enabled(s, Take(p)) && PcOf(s, p).req.RObserve? && PcOf(s, p).k.KPass?
    ensures var t := TakeNext(s, p);
            var Asking(e, req, k) := PcOf(s, p);
            && t.ents[e].life.state == req.found && t.ents[e].work == Selecting
            && (req.found == Ready ==> t.ents[e].life.due == if s.idle > 0 then Some(s.now + s.idle) else None)
            && PcOf(t, p) == Walking(k.todo, k.after) && t.log == s.log && t.boxes == s.boxes
  {
  }

  /** What is told is recorded, and a sandbox found running is on the idle clock from then. */
  lemma PassObserves(s: System, p: nat)
    requires Inv(s) && Enabled(s, Take(p)) && PcOf(s, p).req.RObserve?
    ensures var t := TakeNext(s, p);
            var Asking(e, req, k) := PcOf(s, p);
            && t.ents[e].life.state == req.found && t.ents[e].work == Selecting
            && (req.found == Ready ==> t.ents[e].life.due == if s.idle > 0 then Some(s.now + s.idle) else None)
            && k.KPass? && PcOf(t, p) == Walking(k.todo, k.after) && t.log == s.log && t.boxes == s.boxes
  {
    assert PcOk(s.procs[p].pc, |s.ents|);
    ObservationTaken(s, p);
  }

  /** The caller is Reconcile. */
  predicate Reconciling(pc: Pc) {
    || pc.ReconcileCalled? || pc.ReconcileLocking? || (pc.Listing? && pc.after.ThenReport?)
    || (pc.Walking? && pc.after.ThenReport?) || ((pc.Asking? || pc.Awaiting?) && pc.k.KPass? && pc.k.after.ThenReport?)
  }

  /** Reconcile says it is done only when the whole listing is; it fails if the backend's listing
      fails, if an entry it made is gone before it was told, or because the manager is closing. */
  lemma ReconcileAnswers(s: System, a: Action, p: nat)
    requires Inv(s) && Enabled(s, a) && Mover(s, a) == Some(p) && !a.Return? && p < |s.procs| && Reconciling(PcOf(s, p))
    ensures p < |Next(s, a).procs|
    ensures match PcOf(Next(s, a), p)
            case Done(Fine) => a.FinishPass? && PcOf(s, p).todo == []
            case Done(Failed(FromBackend)) => a.ListFails?
            case Done(Failed(Refused)) => s.closing && (a.Gate? || a.Adopt?)
            case Done(Failed(NotTaken(why))) => a.TurnAway? && s.ents[PcOf(s, p).e].work == Gone(why)
            case Done(_) => false
            case pc => Reconciling(pc)
    ensures a.Gate? && s.closing ==> PcOf(Next(s, a), p) == Done(Failed(Refused))
  {
    assert PcOk(s.procs[p].pc, |s.ents|);
  }

  // ---------------------------------------------------------------- the pass before a command

  /** The entry a command was called on, while it has not returned. */
  function CommandOn(pc: Pc): Option<nat> {
    match pc
    case ExecCalled(e) => Some(e)
    case ExecLocking(e) => Some(e)
    case Listing(ThenExec(e)) => Some(e)
    case Walking(_, ThenExec(e)) => Some(e)
    case Asking(_, _, KPass(_, ThenExec(e))) => Some(e)
    case Asking(e, RExec, KExec) => Some(e)
    case Awaiting(e, RExec, KExec) => Some(e)
    case _ => None
  }

  /** Still under way on the same entry, or, once its request was asked, returned. */
  predicate SameCommand(pc: Pc, after: Pc) {
    CommandOn(after) == CommandOn(pc) || (after.Done? && (pc.Asking? || pc.Awaiting?) && pc.k.KExec?)
  }

  /** The caller a step moves, if it moves one. */
  function Mover(s: System, a: Action): Option<nat>
    requires Enabled(s, a)
  {
    match a
    case Tick(_) => None
    case Call(_) => None
    case Fire(_) => None
    case Leave(_) => None
    case Quit(_) => None
    case Return(e, _, _) => Client(s.ents[e].work)
    case _ => Some(a.p)
  }

  lemma OthersStayReturned(s: System, e: nat, ok: bool, ended: Time, p: nat)
    requires Enabled(s, Return(e, ok, ended)) && p < |s.procs| && Client(s.ents[e].work) != Some(p)
    ensures p < |ReturnNext(s, e, ok, ended).procs| && PcOf(ReturnNext(s, e, ok, ended), p) == PcOf(s, p)
  {
  }

  lemma OthersStayAdopted(s: System, q: nat, p: nat)
    requires Enabled(s, Adopt(q)) && p < |s.procs| && p != q
    ensures p < |AdoptNext(s, q).procs| && PcOf(AdoptNext(s, q), p) == PcOf(s, p)
  {
  }

  lemma OthersStayPassed(s: System, a: Action, p: nat)
    requires Enabled(s, a) && p < |s.procs| && Mover(s, a) != Some(p)
    requires a.Gate? || a.Lock? || a.ListFails? || a.ListReturns? || a.FinishPass? || a.TurnAway?
    ensures p < |Next(s, a).procs| && PcOf(Next(s, a), p) == PcOf(s, p)
  {
  }

  lemma OthersStayElse(s: System, a: Action, p: nat)
    requires Enabled(s, a) && p < |s.procs| && Mover(s, a) != Some(p) && !a.Return? && !a.Adopt?
    requires !a.Gate? && !a.Lock? && !a.ListFails? && !a.ListReturns? && !a.FinishPass? && !a.TurnAway?
    ensures p < |Next(s, a).procs| && PcOf(Next(s, a), p) == PcOf(s, p)
  {
  }

  lemma OthersStay(s: System, a: Action, p: nat)
    requires Enabled(s, a) && p < |s.procs| && Mover(s, a) != Some(p)
    ensures p < |Next(s, a).procs| && PcOf(Next(s, a), p) == PcOf(s, p)
  {
    if a.Return? {
      OthersStayReturned(s, a.e, a.ok, a.ended, p);
    } else if a.Adopt? {
      OthersStayAdopted(s, a.p, p);
    } else if a.Gate? || a.Lock? || a.ListFails? || a.ListReturns? || a.FinishPass? || a.TurnAway? {
      OthersStayPassed(s, a, p);
    } else {
      OthersStayElse(s, a, p);
    }
  }

  lemma CommandReturns(s: System, e: nat, ok: bool, ended: Time, p: nat)
    requires Paired(s) && Enabled(s, Return(e, ok, ended)) && p < |s.procs| && Mover(s, Return(e, ok, ended)) == Some(p)
    requires CommandOn(PcOf(s, p)).Some?
    ensures SameCommand(PcOf(s, p), PcOf(ReturnNext(s, e, ok, ended), p))
  {
  }

  lemma CommandTaken(s: System, p: nat)
    requires Shape(s) && Enabled(s, Take(p)) && CommandOn(PcOf(s, p)).Some?
    ensures SameCommand(PcOf(s, p), PcOf(TakeNext(s, p), p))
  {
    assert PcOk(s.procs[p].pc, |s.ents|);
  }

  lemma CommandTurnedAway(s: System, p: nat)
    requires Enabled(s, TurnAway(p)) && CommandOn(PcOf(s, p)).Some?
    ensures SameCommand(PcOf(s, p), PcOf(TurnAwayNext(s, p), p))
  {
  }

  lemma CommandAdopts(s: System, p: nat)
    requires Enabled(s, Adopt(p)) && CommandOn(PcOf(s, p)).Some?
    ensures SameCommand(PcOf(s, p), PcOf(AdoptNext(s, p), p))
  {
  }

  lemma CommandMoves(s: System, a: Action, p: nat)
    requires Enabled(s, a) && Mover(s, a) == Some(p) && CommandOn(PcOf(s, p)).Some?
    requires !a.Return? && !a.Take? && !a.TurnAway? && !a.Adopt?
    ensures p < |Next(s, a).procs| && CommandOn(PcOf(Next(s, a), p)) == CommandOn(PcOf(s, p))
  {
  }

  lemma CommandMoved(s: System, a: Action, p: nat)
    requires Inv(s) && Enabled(s, a) && Mover(s, a) == Some(p) && p < |s.procs| && CommandOn(PcOf(s, p)).Some?
    ensures p < |Next(s, a).procs| && SameCommand(PcOf(s, p), PcOf(Next(s, a), p))
  {
    if a.Return? {
      CommandReturns(s, a.e, a.ok, a.ended, p);
    } else if a.Take? {
      CommandTaken(s, p);
    } else if a.TurnAway? {
      CommandTurnedAway(s, p);
    } else if a.Adopt? {
      CommandAdopts(s, p);
    } else {
      CommandMoves(s, a, p);
    }
  }

  lemma CommandStep(s: System, a: Action, p: nat)
    requires Inv(s) && Enabled(s, a) && p < |s.procs| && CommandOn(PcOf(s, p)).Some?
    ensures p < |Next(s, a).procs| && SameCommand(PcOf(s, p), PcOf(Next(s, a), p))
  {
    if Mover(s, a) == Some(p) {
      CommandMoved(s, a, p);
    } else {
      OthersStay(s, a, p);
    }
  }

  /** A command stays with the entry it was called on until it returns, and it only returns with what came
      of its own request: no pass before it makes it fail. */
  lemma CommandStays(states: seq<System>, actions: seq<Action>, i: nat, p: nat)
    requires IsRun(states, actions) && i < |actions| && p < |states[i].procs| && CommandOn(PcOf(states[i], p)).Some?
    ensures p < |states[i + 1].procs|
    ensures var pc, after := PcOf(states[i], p), PcOf(states[i + 1], p);
            CommandOn(after) == CommandOn(pc) || (after.Done? && (pc.Asking? || pc.Awaiting?) && pc.k.KExec?)
  {
    RunKeeps(states, actions, i);
    CommandStep(states[i], actions[i], p);
  }

  /** It asks its entry only after a pass succeeded, or its own failed, or the manager is closing. */
  lemma CommandWaits(s: System, a: Action, p: nat)
    requires Enabled(s, a) && p < |s.procs|
    requires !(PcOf(s, p).Asking? && PcOf(s, p).req.RExec?) && PcOf(Next(s, a), p).Asking? && PcOf(Next(s, a), p).req.RExec?
    ensures Next(s, a).adopted || s.closing || (a in {ListFails(p), TurnAway(p), Adopt(p)} && HoldsLock(PcOf(s, p)))
  {
    if Mover(s, a) != Some(p) {
      OthersStay(s, a, p);
    }
  }

  /** Only a pass that has been through its whole listing counts, and it counts for good. */
  lemma PassCounts(s: System, a: Action)
    requires Enabled(s, a)
    ensures s.adopted ==> Next(s, a).adopted
    ensures Next(s, a).adopted && !s.adopted ==> a.FinishPass? && PcOf(s, a.p).Walking? && PcOf(s, a.p).todo == []
  {
  }

  /** Once one has, no command makes another. */
  lemma PassOnce(s: System, a: Action, p: nat)
    requires Enabled(s, a) && p < |s.procs|
    ensures p < |Next(s, a).procs|
    ensures PcOf(Next(s, a), p).Listing? && !PcOf(s, p).Listing? ==> !s.adopted || PcOf(s, p) == ReconcileLocking
    ensures s.adopted && a == Gate(p) && PcOf(s, p).ExecCalled? ==> PcOf(Next(s, a), p) == Asking(PcOf(s, p).e, RExec, KExec)
  {
    if Mover(s, a) != Some(p) {
      OthersStay(s, a, p);
    }
  }

  // ---------------------------------------------------------------- a close

  /** Something Close waits for can go on. */
  ghost predicate CanGoOn(s: System, e: nat) {
    || (Enabled(s, Quit(e)) && Next(s, Quit(e)).ents[e].work.Gone?)
    || (Enabled(s, Leave(e)) && Next(s, Leave(e)).ents[e].work.Gone?)
    || (e < |s.ents| && Client(s.ents[e].work).Some? && forall ok :: Enabled(s, Return(e, ok, s.now)))
  }

  lemma GoesOn(s: System, e: nat)
    requires Paired(s) && s.closing && e < |s.ents| && !s.ents[e].work.Gone?
    requires s.ents[e].work.Running? ==> s.ents[e].work.since <= s.now
    ensures CanGoOn(s, e)
  {
  }

  /** A Close that drains is never stuck: each goroutine it waits for can exit, or has a backend call in
      flight that can return, and when all have exited the backend can be closed. */
  lemma CloseGoesOn(states: seq<System>, actions: seq<Action>, i: nat, p: nat, failed: bool)
    requires IsRun(states, actions) && i < |states| && p < |states[i].procs| && PcOf(states[i], p).Draining?
    ensures var s := states[i];
            || (Enabled(s, CloseBackend(p, failed)) && PcOf(Next(s, CloseBackend(p, failed)), p) == Done(CloseSaid(failed)))
            || exists e: nat :: e in PcOf(s, p).known && CanGoOn(s, e)
  {
    RunKeeps(states, actions, i);
    var s := states[i];
    assert PcOk(s.procs[p].pc, |s.ents|);
    if exists e: nat :: e in PcOf(s, p).known && !s.ents[e].work.Gone? {
      var e: nat :| e in PcOf(s, p).known && !s.ents[e].work.Gone?;
      GoesOn(s, e);
    }
  }
}
