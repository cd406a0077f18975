/** When the manager's belief about a sandbox is what the backend holds, over every interleaving. */
module SandboxBelief {
  import opened Wrappers
  import opened SandboxLife
  import opened SandboxSystem
  import opened SandboxInvariant

  /** The resting state an entry stands by: the one it falls back to if a call in flight fails. */
  function Belief(en: Ent): State {
    match en.work
    case Selecting => en.life.state
    case Ensuring(_, prior) => prior
    case Running(_, _) => Ready
    case Halting(_) => Ready
    case Removing(_, prior) => prior
    case Leaving => Unknown
    case Gone(_) => Unknown
  }

  predicate BelievedEnt(en: Ent, idle: Time, boxes: map<string, Box>) {
    && Truth(Belief(en), en.life.spec.name, boxes)
    && (en.work.Selecting? ==> Settled(en.life, idle))
  }

  /** Every entry's belief is true, and between requests it is settled. */
  ghost predicate Believed(s: System) {
    forall e: nat :: e < |s.ents| ==> BelievedEnt(s.ents[e], s.idle, s.boxes)
  }

  // ---------------------------------------------------------------- steps that cannot lose a belief

  predicate OnlyBox(a: map<string, Box>, b: map<string, Box>, name: string) {
    (a - {name}) == (b - {name})
  }

  lemma OnlyBoxAt(a: map<string, Box>, b: map<string, Box>, name: string, n: string)
    requires OnlyBox(a, b, name) && n != name
    ensures (n in a <==> n in b) && (n in a ==> a[n] == b[n])
  {
    assert n in a <==> n in a - {name};
    assert n in b <==> n in b - {name};
    assert n in a ==> (a - {name})[n] == a[n];
  }

  /** A step changes the backend under one live entry's name, or not at all. */
  predicate BoxesAt(s: System, t: System, e: nat) {
    t.boxes == s.boxes
    || (e < |s.ents| && Live(s.ents[e]) && OnlyBox(s.boxes, t.boxes, s.ents[e].life.spec.name))
  }

  lemma BelievedKept(s: System, t: System, p: nat, e: nat)
    requires OnePerName(s) && Believed(s) && Delta(s, t, p, e) && BoxesAt(s, t, e)
    requires e < |t.ents| ==> BelievedEnt(t.ents[e], t.idle, t.boxes)
    ensures Believed(t)
  {
    forall d: nat | d < |t.ents|
      ensures BelievedEnt(t.ents[d], t.idle, t.boxes)
    {
      if d != e && t.boxes != s.boxes && Live(s.ents[d]) {
        OnlyBoxAt(s.boxes, t.boxes, s.ents[e].life.spec.name, s.ents[d].life.spec.name);
      }
    }
  }

  lemma TakeBelieved(s: System, p: nat)
    requires OnePerName(s) && Believed(s) && HasPc(s, p) && PcOf(s, p).Asking? && !PcOf(s, p).req.RObserve?
    requires PcOf(s, p).e < |s.ents| && s.ents[PcOf(s, p).e].work.Selecting?
    ensures Believed(TakeNext(s, p))
  {
    assert BelievedEnt(s.ents[PcOf(s, p).e], s.idle, s.boxes);
    BelievedKept(s, TakeNext(s, p), p, PcOf(s, p).e);
  }

  lemma ReturnBelieved(s: System, e: nat, ok: bool, ended: Time)
    requires OnePerName(s) && Believed(s) && e < |s.ents| && Client(s.ents[e].work).Some? && InStep(s.ents[e], s.idle)
    requires HasPc(s, Client(s.ents[e].work).value)
    ensures Believed(ReturnNext(s, e, ok, ended))
  {
    assert BelievedEnt(s.ents[e], s.idle, s.boxes);
    BelievedKept(s, ReturnNext(s, e, ok, ended), Client(s.ents[e].work).value, e);
  }

  /** A step that changes no entry but one that cannot call the backend (any more, or yet). */
  lemma QuietBelieved(s: System, a: Action, p: nat, e: nat)
    requires OnePerName(s) && Believed(s) && Enabled(s, a)
    requires Delta(s, Next(s, a), p, e) && Next(s, a).boxes == s.boxes
    requires e < |Next(s, a).ents| ==> BelievedEnt(Next(s, a).ents[e], s.idle, s.boxes)
    ensures Believed(Next(s, a))
  {
    BelievedKept(s, Next(s, a), p, e);
  }

  lemma PassStepBelieved(s: System, a: Action)
    requires OnePerName(s) && Believed(s) && Enabled(s, a)
    requires a.Adopt? || a.Gate? || a.Lock? || a.ListFails? || a.ListReturns? || a.FinishPass?
    ensures Believed(Next(s, a))
  {
    QuietBelieved(s, a, a.p, |s.ents|);
  }

  lemma CallerStepBelieved(s: System, a: Action)
    requires OnePerName(s) && Believed(s) && Enabled(s, a)
    requires a.BeginClose? || a.Collect? || a.CloseBackend? || a.SeeClosed?
    ensures Believed(Next(s, a))
  {
    QuietBelieved(s, a, a.p, |s.ents|);
  }

  lemma LeaverBelieved(s: System, a: Action)
    requires OnePerName(s) && Believed(s) && Enabled(s, a) && (a.TurnAway? || a.Forget?)
    ensures Believed(Next(s, a))
  {
    QuietBelieved(s, a, a.p, |s.ents|);
  }

  lemma ExitBelieved(s: System, a: Action)
    requires OnePerName(s) && Believed(s) && Enabled(s, a) && (a.Leave? || a.Quit?)
    ensures Believed(Next(s, a))
  {
    QuietBelieved(s, a, |s.procs|, a.e);
  }

  lemma ArrivalBelieved(s: System, a: Action)
    requires OnePerName(s) && Believed(s) && Enabled(s, a) && (a.Fire? || a.Call? || a.Tick?)
    ensures Believed(Next(s, a))
  {
    QuietBelieved(s, a, |s.procs|, |s.ents|);
  }

  predicate Observes(s: System, a: Action) {
    a.Take? && HasPc(s, a.p) && PcOf(s, a.p).Asking? && PcOf(s, a.p).req.RObserve?
  }

  /** No step but an observation can lose a belief, whatever the callers do. */
  lemma BelievedStep(s: System, a: Action)
    requires Inv(s) && Believed(s) && Enabled(s, a) && !Observes(s, a)
    ensures Believed(Next(s, a))
  {
    match a
    case Take(p) => TakeBelieved(s, p);
    case Return(e, ok, ended) =>
      assert InStep(s.ents[e], s.idle);
      ReturnBelieved(s, e, ok, ended);
    case Fire(_) => ArrivalBelieved(s, a);
    case Call(_) => ArrivalBelieved(s, a);
    case Tick(_) => ArrivalBelieved(s, a);
    case Leave(_) => ExitBelieved(s, a);
    case Quit(_) => ExitBelieved(s, a);
    case TurnAway(_) => LeaverBelieved(s, a);
    case Forget(_) => LeaverBelieved(s, a);
    case BeginClose(_) => CallerStepBelieved(s, a);
    case Collect(_) => CallerStepBelieved(s, a);
    case CloseBackend(_, _) => CallerStepBelieved(s, a);
    case SeeClosed(_) => CallerStepBelieved(s, a);
    case Adopt(_) => PassStepBelieved(s, a);
    case Gate(_) => PassStepBelieved(s, a);
    case Lock(_) => PassStepBelieved(s, a);
    case ListFails(_) => PassStepBelieved(s, a);
    case ListReturns(_, _) => PassStepBelieved(s, a);
    case FinishPass(_) => PassStepBelieved(s, a);
  }

  /** And an observation keeps every belief exactly when what was found is still there, and does
      not take a Ready entry off the idle clock behind its timer's back. */
  lemma ObservationBelieved(s: System, p: nat)
    requires Inv(s) && Believed(s) && Enabled(s, Take(p)) && Observes(s, Take(p))
    ensures var Asking(e, req, _) := PcOf(s, p);
            Believed(TakeNext(s, p)) <==>
              && Truth(req.found, NameOf(s, e), s.boxes)
              && (req.found == Ready || s.ents[e].life.state != Ready || s.idle <= 0)
  {
    var e := PcOf(s, p).e;
    var t := TakeNext(s, p);
    assert PcOk(s.procs[p].pc, |s.ents|);
    assert BelievedEnt(s.ents[e], s.idle, s.boxes);
    ObserveSettles(s.ents[e].life, PcOf(s, p).req.found, s.now, s.idle);
    if BelievedEnt(t.ents[e], t.idle, t.boxes) {
      BelievedKept(s, t, p, e);
    }
  }
}
