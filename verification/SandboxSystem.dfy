/** The manager as a step system (metaharness/sandbox/manager.go, handle.go): callers of Open,
    Exec, Destroy, Reconcile and Close, the goroutine behind every entry ever made, idle wakeups
    and the backend, interleaved one atomic step at a time.

    A goroutine's step runs from one blocking operation to the next: taking a request goes with
    the bookkeeping up to the backend call it leads to, and a call's return with the bookkeeping
    up to the reply. Every entry and every caller keeps its number for good, so that a goroutine
    that outlives its place in the lookup is still there to do harm. */
module SandboxSystem {
  import opened Wrappers
  import opened SandboxLife

  datatype Why = WasDestroyed | WasShutDown

  datatype Req = RExec | RIdle(due: Time) | RDestroy | RObserve(found: State)

  /** Where an entry's goroutine is. The client is the caller whose request is being served. */
  datatype Work =
    | Selecting
    | Ensuring(client: nat, prior: State)
    | Running(client: nat, since: Time)
    | Halting(client: nat)
    | Removing(client: nat, prior: State)
    | Leaving
    | Gone(why: Why)

  datatype Ent = Ent(life: Life, work: Work)

  datatype Found = Found(name: string, box: Box)

  /** What a pass was made for: a command waiting behind the gate, or a Reconcile call. */
  datatype After = ThenExec(e: nat) | ThenReport

  /** What a caller does with the answer to its request. */
  datatype Cont = KExec | KIdle | KDestroy | KPass(todo: seq<Found>, after: After)

  datatype Fault = NotTaken(why: Why) | Refused | FromBackend

  datatype Out = Fine | Opened(e: nat) | Failed(fault: Fault) | CloseSaid(failed: bool)

  datatype Pc =
    | OpenCalled(name: string)
    | ExecCalled(e: nat)
    | ExecLocking(e: nat)
    | DestroyCalled(name: string)
    | Forgetting(e: nat)
    | ReconcileCalled
    | ReconcileLocking
    | Listing(after: After)
    | Walking(todo: seq<Found>, after: After)
    | Asking(e: nat, req: Req, k: Cont)
    | Awaiting(e: nat, req: Req, k: Cont)
    | CloseCalled
    | Collecting
    | Draining(known: set<nat>)
    | Done(out: Out)

  /** A caller, with how many of its requests were taken and how many answered. */
  datatype Proc = Proc(pc: Pc, taken: nat, answered: nat)

  datatype MarkKind = EnsureBegan | ExecBegan | ExecEnded | StopBegan | DestroyBegan | BackendClosed

  datatype Mark = Mark(kind: MarkKind, name: string, at: Time)

  datatype System = System(
    idle: Time,
    image: string,
    now: Time,
    boxes: map<string, Box>,
    table: map<string, nat>,
    ents: seq<Ent>,
    procs: seq<Proc>,
    adoptMu: Option<nat>,
    adopted: bool,
    closing: bool,
    closer: Option<nat>,
    closeAnswer: Option<bool>,
    log: seq<Mark>)

  datatype Action =
    | Tick(passed: nat)
    | Call(pc: Pc)
    | Adopt(p: nat)
    | Gate(p: nat)
    | Lock(p: nat)
    | ListFails(p: nat)
    | ListReturns(p: nat, found: seq<Found>)
    | FinishPass(p: nat)
    | Take(p: nat)
    | TurnAway(p: nat)
    | Return(e: nat, ok: bool, ended: Time)
    | Leave(e: nat)
    | Quit(e: nat)
    | Forget(p: nat)
    | Fire(e: nat)
    | BeginClose(p: nat)
    | Collect(p: nat)
    | CloseBackend(p: nat, failed: bool)
    | SeeClosed(p: nat)

  // ---------------------------------------------------------------- small pieces

  function Client(w: Work): Option<nat> {
    match w
    case Ensuring(p, _) => Some(p)
    case Running(p, _) => Some(p)
    case Halting(p) => Some(p)
    case Removing(p, _) => Some(p)
    case _ => None
  }

  /** The goroutine can still make a backend call. */
  predicate Live(en: Ent) {
    !en.work.Leaving? && !en.work.Gone?
  }

  predicate HoldsLock(pc: Pc) {
    pc.Listing? || pc.Walking? || (pc.Asking? && pc.k.KPass?) || (pc.Awaiting? && pc.k.KPass?)
  }

  predicate HasPc(s: System, p: nat) {
    p < |s.procs|
  }

  function PcOf(s: System, p: nat): Pc
    requires p < |s.procs|
  {
    s.procs[p].pc
  }

  function SetPc(s: System, p: nat, pc: Pc): System
    requires p < |s.procs|
  {
    s.(procs := s.procs[p := s.procs[p].(pc := pc)])
  }

  function SetEnt(s: System, e: nat, life: Life, work: Work): System
    requires e < |s.ents|
  {
    s.(ents := s.ents[e := Ent(life, work)])
  }

  function Noted(s: System, kind: MarkKind, name: string, at: Time): System {
    s.(log := s.log + [Mark(kind, name, at)])
  }

  function NameOf(s: System, e: nat): string
    requires e < |s.ents|
  {
    s.ents[e].life.spec.name
  }

  /** A pass that failed: a command goes ahead without it, a Reconcile call reports it. */
  function PassFailed(s: System, p: nat, after: After, fault: Fault): System
    requires p < |s.procs|
  {
    SetPc(s.(adoptMu := None), p,
          match after
          case ThenExec(e) => Asking(e, RExec, KExec)
          case ThenReport => Done(Failed(fault)))
  }

  /** What backend.List may answer. */
  ghost predicate IsListing(found: seq<Found>, boxes: map<string, Box>) {
    && (forall i :: 0 <= i < |found| ==> found[i].name in boxes && boxes[found[i].name] == found[i].box)
    && (forall i, j :: 0 <= i < j < |found| ==> found[i].name != found[j].name)
    && (forall n :: n in boxes ==> exists i :: 0 <= i < |found| && found[i].name == n)
  }

  function FoundState(f: Found): State {
    if f.box.running then Ready else Stopped
  }

  // ---------------------------------------------------------------- steps

  predicate Callable(s: System, pc: Pc) {
    match pc
    case OpenCalled(name) => name != ""
    case DestroyCalled(name) => name != ""
    case ExecCalled(e) => e < |s.ents|
    case ReconcileCalled => true
    case CloseCalled => true
    case _ => false
  }

  ghost predicate Enabled(s: System, a: Action) {
    match a
    case Tick(_) => true
    case Call(pc) => Callable(s, pc)
    case Adopt(p) => HasPc(s, p) && (PcOf(s, p).OpenCalled? || PcOf(s, p).DestroyCalled?
                                     || (PcOf(s, p).Walking? && PcOf(s, p).todo != []))
    case Gate(p) => HasPc(s, p) && (PcOf(s, p).ExecCalled? || PcOf(s, p).ReconcileCalled?)
    case Lock(p) => HasPc(s, p) && s.adoptMu.None? && (PcOf(s, p).ExecLocking? || PcOf(s, p).ReconcileLocking?)
    case ListFails(p) => HasPc(s, p) && PcOf(s, p).Listing?
    case ListReturns(p, found) => HasPc(s, p) && PcOf(s, p).Listing? && IsListing(found, s.boxes)
    case FinishPass(p) => HasPc(s, p) && PcOf(s, p).Walking? && PcOf(s, p).todo == []
    case Take(p) => HasPc(s, p) && PcOf(s, p).Asking? && PcOf(s, p).e < |s.ents| && s.ents[PcOf(s, p).e].work.Selecting?
    case TurnAway(p) => HasPc(s, p) && PcOf(s, p).Asking? && PcOf(s, p).e < |s.ents| && s.ents[PcOf(s, p).e].work.Gone?
    case Return(e, _, ended) => && e < |s.ents| && Client(s.ents[e].work).Some? && HasPc(s, Client(s.ents[e].work).value)
                                && (s.ents[e].work.Running? ==> s.ents[e].work.since <= ended <= s.now)
    case Leave(e) => e < |s.ents| && s.ents[e].work.Leaving?
    case Quit(e) => e < |s.ents| && s.ents[e].work.Selecting? && s.closing
    case Forget(p) => HasPc(s, p) && PcOf(s, p).Forgetting? && PcOf(s, p).e < |s.ents|
    case Fire(e) => e < |s.ents| && s.ents[e].life.timer.Some? && s.ents[e].life.timer.value <= s.now
    case BeginClose(p) => HasPc(s, p) && PcOf(s, p).CloseCalled? && s.closer.None?
    case Collect(p) => HasPc(s, p) && PcOf(s, p).Collecting?
    case CloseBackend(p, _) => && HasPc(s, p) && PcOf(s, p).Draining?
                               && forall e :: e in PcOf(s, p).known ==> e < |s.ents| && s.ents[e].work.Gone?
    case SeeClosed(p) => HasPc(s, p) && PcOf(s, p).CloseCalled? && s.closeAnswer.Some?
  }

  /** m.adopt, under m.mu: refused once closing, the entry the name has, or a new one. */
  function AdoptNext(s: System, p: nat): System
    requires HasPc(s, p)
    requires PcOf(s, p).OpenCalled? || PcOf(s, p).DestroyCalled? || (PcOf(s, p).Walking? && PcOf(s, p).todo != [])
  {
    var pc := PcOf(s, p);
    var spec := match pc
                case OpenCalled(name) => Spec(name, s.image)
                case DestroyCalled(name) => Spec(name, "")
                case Walking(todo, _) => Spec(todo[0].name, todo[0].box.image);
    if s.closing then
      if pc.Walking? then PassFailed(s, p, pc.after, Refused) else SetPc(s, p, Done(Failed(Refused)))
    else
      var known := spec.name in s.table;
      var e := if known then s.table[spec.name] else |s.ents|;
      var s' := if known then s
                else s.(table := s.table[spec.name := e], ents := s.ents + [Ent(NewLife(spec), Selecting)]);
      SetPc(s', p,
            match pc
            case OpenCalled(_) => Done(Opened(e))
            case DestroyCalled(_) => Asking(e, RDestroy, KDestroy)
            case Walking(todo, after) =>
              if known then Walking(todo[1..], after)
              else Asking(e, RObserve(FoundState(todo[0])), KPass(todo[1..], after)))
  }

  function GateNext(s: System, p: nat): System
    requires HasPc(s, p) && (PcOf(s, p).ExecCalled? || PcOf(s, p).ReconcileCalled?)
  {
    SetPc(s, p,
          match PcOf(s, p)
          case ExecCalled(e) => if s.adopted || s.closing then Asking(e, RExec, KExec) else ExecLocking(e)
          case ReconcileCalled => if s.closing then Done(Failed(Refused)) else ReconcileLocking)
  }

  function LockNext(s: System, p: nat): System
    requires HasPc(s, p) && (PcOf(s, p).ExecLocking? || PcOf(s, p).ReconcileLocking?)
  {
    match PcOf(s, p)
    case ExecLocking(e) =>
      if s.adopted then SetPc(s, p, Asking(e, RExec, KExec))
      else SetPc(s.(adoptMu := Some(p)), p, Listing(ThenExec(e)))
    case ReconcileLocking => SetPc(s.(adoptMu := Some(p)), p, Listing(ThenReport))
  }

  function FinishNext(s: System, p: nat): System
    requires HasPc(s, p) && PcOf(s, p).Walking?
  {
    SetPc(s.(adoptMu := None, adopted := true), p,
          match PcOf(s, p).after
          case ThenExec(e) => Asking(e, RExec, KExec)
          case ThenReport => Done(Fine))
  }

  /** What serve makes of a request, up to a backend call or the answer: an entry still Selecting
      has answered at once. */
  datatype Served = Served(life: Life, work: Work, note: Option<MarkKind>)

  function Serve(l: Life, req: Req, p: nat, now: Time, idle: Time): Served {
    match req
    case RExec =>
      if l.state == Ready then Served(ExecTaken(l), Running(p, now), Some(ExecBegan))
      else Served(ExecTaken(l), Ensuring(p, l.state), Some(EnsureBegan))
    case RIdle(due) =>
      if IdleDue(l, due) then Served(StopTaken(l), Halting(p), Some(StopBegan))
      else Served(l, Selecting, None)
    case RDestroy => Served(DestroyTaken(l), Removing(p, l.state), Some(DestroyBegan))
    case RObserve(found) => Served(Observed(l, found, now, idle), Selecting, None)
  }

  /** The goroutine receives p's request. */
  function TakeNext(s: System, p: nat): System
    requires HasPc(s, p) && PcOf(s, p).Asking? && PcOf(s, p).e < |s.ents|
  {
    var Asking(e, req, k) := PcOf(s, p);
    var r := Serve(s.ents[e].life, req, p, s.now, s.idle);
    var proc := if Client(r.work).Some? then Proc(Awaiting(e, req, k), s.procs[p].taken + 1, s.procs[p].answered)
                else Proc(if k.KPass? then Walking(k.todo, k.after) else Done(Fine),
                          s.procs[p].taken + 1, s.procs[p].answered + 1);
    s.(ents := s.ents[e := Ent(r.life, r.work)],
       procs := s.procs[p := proc],
       log := if r.note.Some? then s.log + [Mark(r.note.value, NameOf(s, e), s.now)] else s.log)
  }

  function TurnAwayNext(s: System, p: nat): System
    requires HasPc(s, p) && PcOf(s, p).Asking? && PcOf(s, p).e < |s.ents| && s.ents[PcOf(s, p).e].work.Gone?
  {
    var fault := NotTaken(s.ents[PcOf(s, p).e].work.why);
    match PcOf(s, p).k
    case KPass(_, after) => PassFailed(s, p, after, fault)
    case _ => SetPc(s, p, Done(Failed(fault)))
  }

  /** What the return of the call in flight leads to: a call that succeeds takes effect, and the
      client moves on to reply unless there is another call to make first. */
  datatype Returned = Returned(life: Life, work: Work, boxes: map<string, Box>, note: Option<Mark>, reply: Option<Pc>)

  function Resume(l: Life, e: nat, work: Work, ok: bool, ended: Time, now: Time, idle: Time,
                  boxes: map<string, Box>): Returned
    requires Client(work).Some?
  {
    var name := l.spec.name;
    match work
    case Ensuring(p, prior) =>
      if ok then Returned(Prepared(l), Running(p, now), Readied(boxes, l.spec), Some(Mark(ExecBegan, name, now)), None)
      else Returned(PrepareFailed(l, prior), Selecting, boxes, None, Some(Done(Failed(FromBackend))))
    case Running(_, _) =>
      Returned(ExecDone(l, ended, now, idle), Selecting, boxes, Some(Mark(ExecEnded, name, ended)),
               Some(Done(if ok then Fine else Failed(FromBackend))))
    case Halting(_) =>
      if ok then Returned(StopDone(l), Selecting, Released(boxes, name), None, Some(Done(Fine)))
      else Returned(StopFailed(l, now, idle), Selecting, boxes, None, Some(Done(Fine)))
    case Removing(_, prior) =>
      if ok then Returned(DestroyDone(l), Leaving, boxes - {name}, None, Some(Forgetting(e)))
      else Returned(DestroyFailed(l, prior, now, idle), Selecting, boxes, None, Some(Done(Failed(FromBackend))))
  }

  /** The backend call in flight for e returns. */
  function ReturnNext(s: System, e: nat, ok: bool, ended: Time): System
    requires e < |s.ents| && Client(s.ents[e].work).Some? && HasPc(s, Client(s.ents[e].work).value)
  {
    var p := Client(s.ents[e].work).value;
    var r := Resume(s.ents[e].life, e, s.ents[e].work, ok, ended, s.now, s.idle, s.boxes);
    s.(boxes := r.boxes,
       ents := s.ents[e := Ent(r.life, r.work)],
       procs := if r.reply.None? then s.procs
                else s.procs[p := Proc(r.reply.value, s.procs[p].taken, s.procs[p].answered + 1)],
       log := if r.note.None? then s.log else s.log + [r.note.value])
  }

  /** m.forget, with its test that the lookup still names the destroyed entry. */
  function ForgetNext(s: System, p: nat): System
    requires HasPc(s, p) && PcOf(s, p).Forgetting? && PcOf(s, p).e < |s.ents|
  {
    var e := PcOf(s, p).e;
    var name := NameOf(s, e);
    var t := if name in s.table && s.table[name] == e then s.(table := s.table - {name}) else s;
    SetPc(t, p, Done(Fine))
  }

  function Next(s: System, a: Action): System
    requires Enabled(s, a)
  {
    match a
    case Tick(passed) => s.(now := s.now + passed)
    case Call(pc) => s.(procs := s.procs + [Proc(pc, 0, 0)])
    case Adopt(p) => AdoptNext(s, p)
    case Gate(p) => GateNext(s, p)
    case Lock(p) => LockNext(s, p)
    case ListFails(p) => PassFailed(s, p, PcOf(s, p).after, FromBackend)
    case ListReturns(p, found) => SetPc(s, p, Walking(found, PcOf(s, p).after))
    case FinishPass(p) => FinishNext(s, p)
    case Take(p) => TakeNext(s, p)
    case TurnAway(p) => TurnAwayNext(s, p)
    case Return(e, ok, ended) => ReturnNext(s, e, ok, ended)
    case Leave(e) => SetEnt(s, e, OffClock(s.ents[e].life), Gone(WasDestroyed))
    case Quit(e) => SetEnt(s, e, OffClock(s.ents[e].life), Gone(WasShutDown))
    case Forget(p) => ForgetNext(s, p)
    case Fire(e) =>
      s.(procs := s.procs + [Proc(Asking(e, RIdle(s.ents[e].life.timer.value), KIdle), 0, 0)])
    case BeginClose(p) => SetPc(s.(closing := true, closer := Some(p)), p, Collecting)
    case Collect(p) => SetPc(s, p, Draining(set n | n in s.table :: s.table[n]))
    case CloseBackend(p, failed) =>
      SetPc(Noted(s.(closeAnswer := Some(failed)), BackendClosed, "", s.now), p, Done(CloseSaid(failed)))
    case SeeClosed(p) => SetPc(s, p, Done(CloseSaid(s.closeAnswer.value)))
  }

  /** A manager just built over a backend that may hold anything. */
  predicate Init(s: System) {
    && s.table == map[] && s.ents == [] && s.procs == [] && s.log == []
    && s.adoptMu.None? && !s.adopted && !s.closing && s.closer.None? && s.closeAnswer.None?
  }

  /** states is a run of the system under actions. */
  ghost predicate IsRun(states: seq<System>, actions: seq<Action>) {
    && |states| == |actions| + 1
    && Init(states[0])
    && forall i :: 0 <= i < |actions| ==> Enabled(states[i], actions[i]) && states[i + 1] == Next(states[i], actions[i])
  }
}
