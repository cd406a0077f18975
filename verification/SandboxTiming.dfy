/** Idle timing over whole runs: no stop comes early, however late or stale its wakeup. */
module SandboxTiming {
  import opened Wrappers
  import opened SandboxLife
  import opened SandboxSystem
  import opened SandboxInvariant

  /** What restarts a name's idle window: a command ending, or an attempt to stop. */
  predicate Use(m: Mark) {
    m.kind == ExecEnded || m.kind == StopBegan
  }

  /** Every stop attempted is a full window after every earlier use of its name. */
  ghost predicate StopsAreLate(log: seq<Mark>, idle: Time) {
    forall i, j :: 0 <= i < j < |log| && Use(log[i]) && log[j].kind == StopBegan && log[i].name == log[j].name ==>
      log[i].at + idle <= log[j].at
  }

  /** The deadline d is a full window after every use of name so far. */
  ghost predicate AfterUses(log: seq<Mark>, name: string, idle: Time, d: Time) {
    forall i :: 0 <= i < |log| && Use(log[i]) && log[i].name == name ==> log[i].at + idle <= d
  }

  /** A wakeup already asked for was for a deadline that has come. */
  predicate WakeupOk(pc: Pc, now: Time) {
    && (pc.Asking? && pc.req.RIdle? ==> pc.req.due <= now)
    && (pc.Awaiting? && pc.req.RIdle? ==> pc.req.due <= now)
  }

  ghost predicate Timed(s: System) {
    && (forall i :: 0 <= i < |s.log| ==> s.log[i].at <= s.now)
    && (forall p: nat :: p < |s.procs| ==> WakeupOk(s.procs[p].pc, s.now))
    && (forall e: nat :: e < |s.ents| && s.ents[e].work.Selecting? && s.ents[e].life.due.Some? ==>
          AfterUses(s.log, s.ents[e].life.spec.name, s.idle, s.ents[e].life.due.value))
    && (forall e: nat :: e < |s.ents| && s.ents[e].work.Running? ==> s.ents[e].work.since <= s.now)
    && StopsAreLate(s.log, s.idle)
  }

  /** What a step may do to the clock's business: entry e keeps its deadline, loses it or gets a
      full window from now, and a mark it adds is its own. */
  ghost predicate TimedAt(s: System, t: System, p: nat, e: nat) {
    && s.now <= t.now
    && (p < |t.procs| ==> WakeupOk(t.procs[p].pc, t.now))
    && (e < |t.ents| && t.ents[e].work.Selecting? && t.ents[e].life.due.Some? ==>
          || t.ents[e].life.due.value >= t.now + t.idle
          || (e < |s.ents| && s.ents[e].work.Selecting? && s.ents[e].life.due == t.ents[e].life.due && t.log == s.log))
    && (e < |t.ents| && t.ents[e].work.Running? ==> t.ents[e].work.since <= t.now)
    && (t.log == s.log
        || (&& |t.log| == |s.log| + 1 && t.log[..|s.log|] == s.log
            && var m := t.log[|s.log|];
               && m.at <= t.now
               && (Use(m) ==> e < |s.ents| && Live(s.ents[e]) && m.name == s.ents[e].life.spec.name)
               && (m.kind == StopBegan ==> AfterUses(s.log, m.name, s.idle, m.at))))
  }

  lemma TimedKept(s: System, t: System, p: nat, e: nat)
    requires OnePerName(s) && Timed(s) && Delta(s, t, p, e) && TimedAt(s, t, p, e)
    ensures Timed(t)
  {
    if t.log != s.log {
      var m := t.log[|s.log|];
      assert forall i :: 0 <= i < |s.log| ==> t.log[i] == t.log[..|s.log|][i];
      forall d: nat | d < |t.ents| && t.ents[d].work.Selecting? && t.ents[d].life.due.Some?
        ensures AfterUses(t.log, t.ents[d].life.spec.name, t.idle, t.ents[d].life.due.value)
      {
        if d != e {
          assert s.ents[d] == t.ents[d] && Live(s.ents[d]);
        }
      }
    }
  }

  lemma TakeServedTimed(s: System, p: nat)
    requires OnePerName(s) && Timed(s) && Enabled(s, Take(p))
    requires PcOf(s, p).req.RExec? || PcOf(s, p).req.RDestroy?
    ensures Timed(TakeNext(s, p))
  {
    TimedKept(s, TakeNext(s, p), p, PcOf(s, p).e);
  }

  lemma TakeObserveTimed(s: System, p: nat)
    requires OnePerName(s) && Timed(s) && Enabled(s, Take(p)) && PcOf(s, p).req.RObserve?
    requires InStep(s.ents[PcOf(s, p).e], s.idle)
    ensures Timed(TakeNext(s, p))
  {
    TimedKept(s, TakeNext(s, p), p, PcOf(s, p).e);
  }

  /** The wakeup's own deadline has come, and acting needs it to be the one on record. */
  lemma TakeIdleTimed(s: System, p: nat)
    requires OnePerName(s) && Timed(s) && Enabled(s, Take(p)) && PcOf(s, p).req.RIdle?
    ensures Timed(TakeNext(s, p))
  {
    var e := PcOf(s, p).e;
    assert WakeupOk(s.procs[p].pc, s.now);
    if IdleDue(s.ents[e].life, PcOf(s, p).req.due) {
      assert AfterUses(s.log, s.ents[e].life.spec.name, s.idle, PcOf(s, p).req.due);
      assert AfterUses(s.log, s.ents[e].life.spec.name, s.idle, s.now);
      TimedKept(s, TakeNext(s, p), p, e);
    } else {
      TimedKept(s, TakeNext(s, p), p, |s.ents|);
    }
  }

  lemma TakeTimed(s: System, p: nat)
    requires Inv(s) && Timed(s) && Enabled(s, Take(p))
    ensures Timed(TakeNext(s, p))
  {
    assert InStep(s.ents[PcOf(s, p).e], s.idle);
    match PcOf(s, p).req
    case RIdle(_) => TakeIdleTimed(s, p);
    case RObserve(_) => TakeObserveTimed(s, p);
    case _ => TakeServedTimed(s, p);
  }

  lemma ReturnTimed(s: System, e: nat, ok: bool, ended: Time)
    requires OnePerName(s) && Timed(s) && Enabled(s, Return(e, ok, ended)) && InStep(s.ents[e], s.idle)
    ensures Timed(ReturnNext(s, e, ok, ended))
  {
    TimedKept(s, ReturnNext(s, e, ok, ended), Client(s.ents[e].work).value, e);
  }

  lemma AdoptTimed(s: System, p: nat)
    requires Inv(s) && Timed(s) && Enabled(s, Adopt(p))
    ensures Timed(AdoptNext(s, p))
  {
    TimedKept(s, AdoptNext(s, p), p, |s.ents|);
  }

  /** A step that notes nothing and re-arms nothing. */
  lemma QuietTimed(s: System, a: Action, p: nat, e: nat)
    requires OnePerName(s) && Timed(s) && Enabled(s, a)
    requires Delta(s, Next(s, a), p, e) && Next(s, a).log == s.log && s.now <= Next(s, a).now
    requires p < |Next(s, a).procs| ==> WakeupOk(Next(s, a).procs[p].pc, Next(s, a).now)
    requires e < |Next(s, a).ents| ==> Next(s, a).ents[e].life.due.None? && !Next(s, a).ents[e].work.Running?
    ensures Timed(Next(s, a))
  {
    TimedKept(s, Next(s, a), p, e);
  }

  lemma PassTimed(s: System, a: Action)
    requires OnePerName(s) && Timed(s) && Enabled(s, a)
    requires a.Gate? || a.Lock? || a.ListFails? || a.ListReturns? || a.FinishPass?
    ensures Timed(Next(s, a))
  {
    QuietTimed(s, a, a.p, |s.ents|);
  }

  lemma CallerTimed(s: System, a: Action)
    requires OnePerName(s) && Timed(s) && Enabled(s, a)
    requires a.BeginClose? || a.Collect? || a.SeeClosed?
    ensures Timed(Next(s, a))
  {
    QuietTimed(s, a, a.p, |s.ents|);
  }

  lemma TurnAwayTimed(s: System, p: nat)
    requires OnePerName(s) && Timed(s) && Enabled(s, TurnAway(p))
    ensures Timed(TurnAwayNext(s, p))
  {
    QuietTimed(s, TurnAway(p), p, |s.ents|);
  }

  lemma ForgetTimed(s: System, p: nat)
    requires OnePerName(s) && Timed(s) && Enabled(s, Forget(p))
    ensures Timed(ForgetNext(s, p))
  {
    QuietTimed(s, Forget(p), p, |s.ents|);
  }

  lemma ExitTimed(s: System, a: Action)
    requires OnePerName(s) && Timed(s) && Enabled(s, a) && (a.Leave? || a.Quit?)
    ensures Timed(Next(s, a))
  {
    QuietTimed(s, a, |s.procs|, a.e);
  }

  lemma ArrivalTimed(s: System, a: Action)
    requires OnePerName(s) && Timed(s) && Enabled(s, a) && (a.Fire? || a.Call? || a.Tick?)
    ensures Timed(Next(s, a))
  {
    QuietTimed(s, a, |s.procs|, |s.ents|);
  }

  lemma WaitingTimed(s: System, a: Action)
    requires OnePerName(s) && Timed(s) && Enabled(s, a)
    requires !a.Take? && !a.Return? && !a.Adopt? && !a.Gate? && !a.Lock? && !a.ListFails? && !a.ListReturns? && !a.FinishPass?
    ensures Timed(Next(s, a))
  {
    match a
    case TurnAway(p) => TurnAwayTimed(s, p);
    case Forget(p) => ForgetTimed(s, p);
    case BeginClose(_) => CallerTimed(s, a);
    case Collect(_) => CallerTimed(s, a);
    case SeeClosed(_) => CallerTimed(s, a);
    case Leave(_) => ExitTimed(s, a);
    case Quit(_) => ExitTimed(s, a);
    case Fire(_) => ArrivalTimed(s, a);
    case Call(_) => ArrivalTimed(s, a);
    case Tick(_) => ArrivalTimed(s, a);
    case CloseBackend(p, _) => TimedKept(s, Next(s, a), p, |s.ents|);
    case _ =>
  }

  lemma TimedStep(s: System, a: Action)
    requires Inv(s) && Timed(s) && Enabled(s, a)
    ensures Timed(Next(s, a))
  {
    match a
    case Take(p) => TakeTimed(s, p);
    case Return(e, ok, ended) =>
      assert InStep(s.ents[e], s.idle);
      ReturnTimed(s, e, ok, ended);
    case Adopt(p) => AdoptTimed(s, p);
    case Gate(_) => PassTimed(s, a);
    case Lock(_) => PassTimed(s, a);
    case ListFails(_) => PassTimed(s, a);
    case ListReturns(_, _) => PassTimed(s, a);
    case FinishPass(_) => PassTimed(s, a);
    case _ => WaitingTimed(s, a);
  }

  lemma {:induction false} RunKeeps(states: seq<System>, actions: seq<Action>, i: nat)
    requires IsRun(states, actions) && i < |states|
    ensures Inv(states[i]) && Timed(states[i])
  {
    if i == 0 {
      InitInv(states[0]);
    } else {
      RunKeeps(states, actions, i - 1);
      StepKeeps(states[i - 1], actions[i - 1]);
      TimedStep(states[i - 1], actions[i - 1]);
    }
  }

  /** In every run, every backend Stop comes at least one idle window after each command on that
      name that ended before it, and after each earlier Stop of that name. */
  lemma NoStopIsEarly(states: seq<System>, actions: seq<Action>, i: nat)
    requires IsRun(states, actions) && i < |states|
    ensures StopsAreLate(states[i].log, states[i].idle)
  {
    RunKeeps(states, actions, i);
  }
}
