/** Runs in which observations are never stale: no Destroy and no start of Close overlaps an
    adoption pass. In these the manager's belief is always true. */
module SandboxCalm {
  import opened Wrappers
  import opened SandboxLife
  import opened SandboxSystem
  import opened SandboxInvariant
  import opened SandboxBelief

  /** An adoption pass that has its listing and may still act on it. */
  predicate InPass(pc: Pc) {
    pc.Walking? || (pc.Asking? && pc.k.KPass?)
  }

  /** A Destroy call that has not returned. */
  predicate InDestroy(pc: Pc) {
    pc.DestroyCalled? || pc.Forgetting? || (pc.Asking? && pc.k.KDestroy?) || (pc.Awaiting? && pc.k.KDestroy?)
  }

  ghost predicate NoPass(s: System) {
    forall p: nat :: p < |s.procs| ==> !InPass(s.procs[p].pc)
  }

  ghost predicate NoDestroy(s: System) {
    forall p: nat :: p < |s.procs| ==> !InDestroy(s.procs[p].pc)
  }

  /** The side condition of the belief, checked step by step: unless the manager is already
      closing, no Destroy is in progress when a pass gets its listing and none is called while a
      pass is under way, and Close does not begin while a pass is under way. */
  ghost predicate Calm(s: System, a: Action) {
    && (a.ListReturns? ==> s.closing || NoDestroy(s))
    && (a.Call? && a.pc.DestroyCalled? ==> s.closing || NoPass(s))
    && (a.BeginClose? ==> NoPass(s))
  }

  // ---------------------------------------------------------------- the lookup covers the backend

  predicate Names(todo: seq<Found>, n: string) {
    exists i :: 0 <= i < |todo| && todo[i].name == n
  }

  predicate TodoOf(pc: Pc, n: string) {
    (pc.Walking? && Names(pc.todo, n)) || (pc.Asking? && pc.k.KPass? && Names(pc.k.todo, n))
  }

  /** Once a pass has succeeded every sandbox there is has an entry; during a pass, an entry or a
      place in what is left of the listing. A destroyed name stays empty until it is forgotten. */
  ghost predicate Covered(s: System) {
    && (s.adopted ==> forall n :: n in s.boxes ==> n in s.table)
    && (forall p: nat :: p < |s.procs| && InPass(s.procs[p].pc) ==>
          forall n :: n in s.boxes ==> n in s.table || TodoOf(s.procs[p].pc, n))
    && (forall p: nat :: p < |s.procs| && s.procs[p].pc.Forgetting? && s.procs[p].pc.e < |s.ents| ==>
          s.ents[s.procs[p].pc.e].life.spec.name !in s.boxes)
  }

  lemma CoveredKept(s: System, t: System, p: nat, e: nat)
    requires OnePerName(s) && Covered(s) && Delta(s, t, p, e) && BoxesAt(s, t, e)
    requires forall n :: n in s.table && n !in t.table ==> n !in t.boxes
    requires t.adopted ==> s.adopted || forall n :: n in t.boxes ==> n in t.table
    requires p < |t.procs| && InPass(t.procs[p].pc) ==>
               forall n :: n in t.boxes ==> n in t.table || TodoOf(t.procs[p].pc, n)
    requires p < |t.procs| && t.procs[p].pc.Forgetting? && t.procs[p].pc.e < |t.ents| ==>
               t.ents[t.procs[p].pc.e].life.spec.name !in t.boxes
    ensures Covered(t)
  {
    if t.boxes != s.boxes {
      var name := s.ents[e].life.spec.name;
      forall n | n != name
        ensures n in t.boxes <==> n in s.boxes
      {
        OnlyBoxAt(s.boxes, t.boxes, name, n);
      }
    }
  }

  lemma AdoptCovered(s: System, p: nat)
    requires OnePerName(s) && Covered(s) && Enabled(s, Adopt(p))
    ensures Covered(AdoptNext(s, p))
  {
    var t := AdoptNext(s, p);
    var pc := PcOf(s, p);
    if pc.Walking? && !s.closing {
      forall n | n in t.boxes
        ensures n in t.table || TodoOf(t.procs[p].pc, n)
      {
        if n !in s.table && n != pc.todo[0].name {
          var i :| 0 <= i < |pc.todo| && pc.todo[i].name == n;
          assert pc.todo[1..][i - 1].name == n;
        }
      }
    }
    CoveredKept(s, t, p, |s.ents|);
  }

  /** A step that changes neither the lookup nor who holds what of it. */
  lemma QuietCovered(s: System, t: System, p: nat, e: nat)
    requires OnePerName(s) && Covered(s) && Delta(s, t, p, e) && BoxesAt(s, t, e)
    requires t.table == s.table && t.adopted == s.adopted
    requires p < |t.procs| ==> !InPass(t.procs[p].pc) && !t.procs[p].pc.Forgetting?
    ensures Covered(t)
  {
    CoveredKept(s, t, p, e);
  }

  lemma TakeServedCovered(s: System, p: nat)
    requires OnePerName(s) && Covered(s) && HasPc(s, p) && PcOf(s, p).Asking? && !PcOf(s, p).k.KPass?
    requires PcOf(s, p).e < |s.ents|
    ensures Covered(TakeNext(s, p))
  {
    QuietCovered(s, TakeNext(s, p), p, PcOf(s, p).e);
  }

  lemma TakeObserveCovered(s: System, p: nat)
    requires OnePerName(s) && Covered(s) && HasPc(s, p) && PcOf(s, p).Asking? && PcOf(s, p).req.RObserve?
    requires PcOf(s, p).e < |s.ents| && PcOf(s, p).k.KPass?
    ensures Covered(TakeNext(s, p))
  {
    assert InPass(s.procs[p].pc);
    CoveredKept(s, TakeNext(s, p), p, PcOf(s, p).e);
  }

  lemma DestroyedCovered(s: System, e: nat, ended: Time)
    requires OnePerName(s) && Covered(s) && e < |s.ents| && s.ents[e].work.Removing?
    requires HasPc(s, s.ents[e].work.client)
    ensures Covered(ReturnNext(s, e, true, ended))
  {
    CoveredKept(s, ReturnNext(s, e, true, ended), s.ents[e].work.client, e);
  }

  lemma ReturnCovered(s: System, e: nat, ok: bool, ended: Time)
    requires OnePerName(s) && Covered(s) && e < |s.ents| && Client(s.ents[e].work).Some?
    requires HasPc(s, Client(s.ents[e].work).value) && s.procs[Client(s.ents[e].work).value].pc.Awaiting?
    requires !(s.ents[e].work.Removing? && ok)
    ensures Covered(ReturnNext(s, e, ok, ended))
  {
    QuietCovered(s, ReturnNext(s, e, ok, ended), Client(s.ents[e].work).value, e);
  }

  lemma ListCovered(s: System, p: nat, found: seq<Found>)
    requires OnePerName(s) && Covered(s) && Enabled(s, ListReturns(p, found))
    ensures Covered(Next(s, ListReturns(p, found)))
  {
    var t := Next(s, ListReturns(p, found));
    forall n | n in t.boxes
      ensures Names(found, n)
    {
    }
    CoveredKept(s, t, p, |s.ents|);
  }

  lemma ForgetCovered(s: System, p: nat)
    requires OnePerName(s) && Covered(s) && Enabled(s, Forget(p))
    ensures Covered(ForgetNext(s, p))
  {
    CoveredKept(s, ForgetNext(s, p), p, |s.ents|);
  }

  lemma GateCovered(s: System, a: Action)
    requires OnePerName(s) && Covered(s) && Enabled(s, a)
    requires a.Gate? || a.Lock? || a.ListFails?
    ensures Covered(Next(s, a))
  {
    QuietCovered(s, Next(s, a), a.p, |s.ents|);
  }

  lemma FinishCovered(s: System, p: nat)
    requires OnePerName(s) && Covered(s) && Enabled(s, FinishPass(p))
    ensures Covered(FinishNext(s, p))
  {
    assert InPass(s.procs[p].pc);
    assert forall n :: !TodoOf(s.procs[p].pc, n);
    CoveredKept(s, FinishNext(s, p), p, |s.ents|);
  }

  lemma TurnAwayCovered(s: System, p: nat)
    requires OnePerName(s) && Covered(s) && Enabled(s, TurnAway(p))
    ensures Covered(TurnAwayNext(s, p))
  {
    QuietCovered(s, TurnAwayNext(s, p), p, |s.ents|);
  }

  lemma CloseCovered(s: System, a: Action)
    requires OnePerName(s) && Covered(s) && Enabled(s, a)
    requires a.BeginClose? || a.Collect? || a.CloseBackend? || a.SeeClosed?
    ensures Covered(Next(s, a))
  {
    QuietCovered(s, Next(s, a), a.p, |s.ents|);
  }

  lemma ArrivalCovered(s: System, a: Action)
    requires OnePerName(s) && Covered(s) && Enabled(s, a) && (a.Fire? || a.Call? || a.Tick?)
    ensures Covered(Next(s, a))
  {
    QuietCovered(s, Next(s, a), |s.procs|, |s.ents|);
  }

  lemma ExitCovered(s: System, a: Action)
    requires OnePerName(s) && Covered(s) && Enabled(s, a) && (a.Leave? || a.Quit?)
    ensures Covered(Next(s, a))
  {
    QuietCovered(s, Next(s, a), |s.procs|, a.e);
  }

  /** In every run, calm or not, the lookup keeps covering the backend. */
  lemma CoveredStep(s: System, a: Action)
    requires Inv(s) && Covered(s) && Enabled(s, a)
    ensures Covered(Next(s, a))
  {
    match a
    case Take(p) =>
      assert PcOk(s.procs[p].pc, |s.ents|);
      if PcOf(s, p).req.RObserve? {
        TakeObserveCovered(s, p);
      } else {
        TakeServedCovered(s, p);
      }
    case Return(e, ok, ended) =>
      if s.ents[e].work.Removing? && ok {
        DestroyedCovered(s, e, ended);
      } else {
        ReturnCovered(s, e, ok, ended);
      }
    case Adopt(p) => AdoptCovered(s, p);
    case ListReturns(p, found) => ListCovered(s, p, found);
    case Forget(p) => ForgetCovered(s, p);
    case Fire(_) => ArrivalCovered(s, a);
    case Call(_) => ArrivalCovered(s, a);
    case Tick(_) => ArrivalCovered(s, a);
    case Leave(_) => ExitCovered(s, a);
    case Quit(_) => ExitCovered(s, a);
    case TurnAway(p) => TurnAwayCovered(s, p);
    case Gate(_) => GateCovered(s, a);
    case Lock(_) => GateCovered(s, a);
    case ListFails(_) => GateCovered(s, a);
    case FinishPass(p) => FinishCovered(s, p);
    case BeginClose(_) => CloseCovered(s, a);
    case Collect(_) => CloseCovered(s, a);
    case CloseBackend(_, _) => CloseCovered(s, a);
    case SeeClosed(_) => CloseCovered(s, a);
  }

  // ---------------------------------------------------------------- a listing stays true

  /** What a listing says of a name without an entry is still so. */
  ghost predicate Fresh(s: System, todo: seq<Found>) {
    forall i :: 0 <= i < |todo| && todo[i].name !in s.table ==>
      todo[i].name in s.boxes && s.boxes[todo[i].name] == todo[i].box
  }

  ghost predicate Tracked(s: System, todo: seq<Found>) {
    forall i :: 0 <= i < |todo| ==> todo[i].name in s.table
  }

  predicate On(pc: Pc, e: nat) {
    (pc.Asking? || pc.Awaiting?) && pc.e == e
  }

  predicate OnIn(s: System, p: nat, e: nat) {
    p < |s.procs| && On(s.procs[p].pc, e)
  }

  /** Entry e is as the pass made it, and only the pass has business with it. */
  ghost predicate Untouched(s: System, p: nat, e: nat, found: State) {
    && e < |s.ents| && s.ents[e].work.Selecting? && s.ents[e].life.state == Unknown
    && Truth(found, s.ents[e].life.spec.name, s.boxes)
    && forall q: nat :: q < |s.procs| && q != p ==> !On(s.procs[q].pc, e)
  }

  /** What the holder h of adoptMu needs of the rest: its listing true, and its fresh entry its own. */
  ghost predicate PassOf(s: System, h: nat)
    requires h < |s.procs|
  {
    var pc := s.procs[h].pc;
    && (pc.Walking? ==> s.closing || (NoDestroy(s) && Fresh(s, pc.todo) && (s.adopted ==> Tracked(s, pc.todo))))
    && (pc.Asking? && pc.k.KPass? && pc.req.RObserve? ==>
          !s.closing && !s.adopted && NoDestroy(s) && Fresh(s, pc.k.todo) && Untouched(s, h, pc.e, pc.req.found))
  }

  ghost predicate PassOk(s: System) {
    s.adoptMu.Some? && s.adoptMu.value < |s.procs| ==> PassOf(s, s.adoptMu.value)
  }

  /** The part of the invariant a pass depends on. */
  ghost predicate PassInv(s: System) {
    && Locked(s) && OnePerName(s) && PassOk(s)
    && (s.adoptMu.Some? && s.adoptMu.value < |s.procs| ==> PcOk(s.procs[s.adoptMu.value].pc, |s.ents|))
  }

  lemma PassMeans(s: System)
    requires PassInv(s) && !s.closing && !NoPass(s)
    ensures NoDestroy(s)
  {
    var p: nat :| p < |s.procs| && InPass(s.procs[p].pc);
    assert HoldsLock(s.procs[p].pc);
  }

  /** While h has a pass under way, a step by others that opens no Destroy, and touches only
      entries it already had business with, leaves the pass what it needs. */
  lemma BystanderKept(s: System, t: System, p: nat, e: nat, h: nat)
    requires OnePerName(s) && Delta(s, t, p, e) && BoxesAt(s, t, e)
    requires h != p && h < |s.procs| && InPass(s.procs[h].pc) && PassOf(s, h) && PcOk(s.procs[h].pc, |s.ents|)
    requires !s.closing && !t.closing && t.adopted == s.adopted && s.table.Keys <= t.table.Keys
    requires p < |t.procs| ==> !InDestroy(t.procs[p].pc)
    requires (e < |s.ents| && t.ents[e] != s.ents[e]) || t.boxes != s.boxes ==> OnIn(s, p, e)
    requires p < |t.procs| && s.procs[h].pc.Asking? && On(t.procs[p].pc, s.procs[h].pc.e) ==> OnIn(s, p, s.procs[h].pc.e)
    ensures PassOf(t, h)
  {
    var pc := s.procs[h].pc;
    var todo := if pc.Walking? then pc.todo else pc.k.todo;
    forall i | 0 <= i < |todo| && todo[i].name !in t.table
      ensures todo[i].name in t.boxes && t.boxes[todo[i].name] == todo[i].box
    {
      if t.boxes != s.boxes {
        OnlyBoxAt(s.boxes, t.boxes, s.ents[e].life.spec.name, todo[i].name);
      }
    }
    if pc.Asking? {
      assert pc.e != e || t.ents[e] == s.ents[e];
      if t.boxes != s.boxes {
        OnlyBoxAt(s.boxes, t.boxes, s.ents[e].life.spec.name, s.ents[pc.e].life.spec.name);
      }
    }
  }

  /** A step of caller p on entry e, with adoptMu in other hands: if they have a pass under way
      that may still act on its listing, p is a bystander. */
  lemma OthersPass(s: System, t: System, p: nat, e: nat)
    requires PassInv(s) && Delta(s, t, p, e) && BoxesAt(s, t, e)
    requires t.adoptMu == s.adoptMu && s.adoptMu != Some(p) && t.closing == s.closing && t.adopted == s.adopted
    requires !s.closing && !NoPass(s) ==> s.table.Keys <= t.table.Keys && (p < |t.procs| ==> !InDestroy(t.procs[p].pc))
    requires (e < |s.ents| && t.ents[e] != s.ents[e]) || t.boxes != s.boxes ==> OnIn(s, p, e)
    requires !s.closing && !s.adopted && p < |t.procs| && (t.procs[p].pc.Asking? || t.procs[p].pc.Awaiting?) && !NoPass(s) ==>
               || OnIn(s, p, t.procs[p].pc.e)
               || (t.procs[p].pc.e < |s.ents| && s.ents[t.procs[p].pc.e].life.state != Unknown)
    ensures PassOk(t)
  {
    if s.adoptMu.Some? && InPass(s.procs[s.adoptMu.value].pc) && !s.closing {
      BystanderKept(s, t, p, e, s.adoptMu.value);
    }
  }

  lemma CallPass(s: System, a: Action)
    requires PassInv(s) && Enabled(s, a) && Calm(s, a) && (a.Call? || a.Tick?)
    ensures PassOk(Next(s, a))
  {
    OthersPass(s, Next(s, a), |s.procs|, |s.ents|);
  }

  lemma FirePass(s: System, e: nat)
    requires PassInv(s) && Enabled(s, Fire(e)) && s.ents[e].life.state != Unknown
    ensures PassOk(Next(s, Fire(e)))
  {
    OthersPass(s, Next(s, Fire(e)), |s.procs|, |s.ents|);
  }

  lemma ExitPass(s: System, a: Action)
    requires PassInv(s) && Enabled(s, a) && (a.Leave? || a.Quit?)
    ensures PassOk(Next(s, a))
  {
  }

  lemma GatePass(s: System, p: nat)
    requires PassInv(s) && Enabled(s, Gate(p))
    ensures PassOk(GateNext(s, p))
  {
    if !s.closing && !NoPass(s) {
      PassMeans(s);
    }
    OthersPass(s, GateNext(s, p), p, |s.ents|);
  }

  lemma ListPass(s: System, p: nat, found: seq<Found>)
    requires PassInv(s) && Covered(s) && Enabled(s, ListReturns(p, found)) && Calm(s, ListReturns(p, found))
    ensures PassOk(Next(s, ListReturns(p, found)))
  {
    assert HoldsLock(s.procs[p].pc);
  }

  lemma CallerAdoptPass(s: System, p: nat)
    requires PassInv(s) && Enabled(s, Adopt(p)) && !PcOf(s, p).Walking?
    ensures PassOk(AdoptNext(s, p))
  {
    if !s.closing && !NoPass(s) {
      PassMeans(s);
    }
    OthersPass(s, AdoptNext(s, p), p, |s.ents|);
  }

  /** The pass makes an entry nobody else has business with, for a listing that is still true. */
  lemma PassAdoptPass(s: System, p: nat)
    requires PassInv(s) && Shape(s) && Enabled(s, Adopt(p)) && PcOf(s, p).Walking?
    ensures PassOk(AdoptNext(s, p))
  {
    var t := AdoptNext(s, p);
    assert HoldsLock(s.procs[p].pc);
    if !s.closing {
      var Walking(todo, after) := PcOf(s, p);
      assert Fresh(t, todo[1..]);
      assert s.adopted ==> Tracked(t, todo[1..]) && todo[0].name in s.table;
      forall q: nat | q < |t.procs| && q != p
        ensures !On(t.procs[q].pc, |s.ents|)
      {
        assert PcOk(s.procs[q].pc, |s.ents|);
      }
    }
  }

  lemma TakeServedPass(s: System, p: nat)
    requires PassInv(s) && HasPc(s, p) && PcOf(s, p).Asking? && !PcOf(s, p).k.KPass?
    requires ReqFits(PcOf(s, p).req, PcOf(s, p).k)
    requires PcOf(s, p).e < |s.ents| && s.ents[PcOf(s, p).e].work.Selecting?
    ensures PassOk(TakeNext(s, p))
  {
    if !s.closing && !NoPass(s) {
      PassMeans(s);
    }
    OthersPass(s, TakeNext(s, p), p, PcOf(s, p).e);
  }

  lemma TakeObservePass(s: System, p: nat)
    requires PassInv(s) && HasPc(s, p) && PcOf(s, p).Asking? && PcOf(s, p).k.KPass?
    requires ReqFits(PcOf(s, p).req, PcOf(s, p).k)
    requires PcOf(s, p).e < |s.ents|
    ensures PassOk(TakeNext(s, p))
  {
    assert HoldsLock(s.procs[p].pc);
  }

  lemma TurnAwayPass(s: System, p: nat)
    requires PassInv(s) && Enabled(s, TurnAway(p))
    ensures PassOk(TurnAwayNext(s, p))
  {
    if !PcOf(s, p).k.KPass? {
      OthersPass(s, TurnAwayNext(s, p), p, |s.ents|);
    }
  }

  lemma BystanderReturn(s: System, e: nat, ok: bool, ended: Time, h: nat)
    requires OnePerName(s) && e < |s.ents| && !s.closing
    requires Client(s.ents[e].work).Some? && !s.ents[e].work.Removing? && OnIn(s, Client(s.ents[e].work).value, e)
    requires s.adoptMu == Some(h) && h < |s.procs| && h != Client(s.ents[e].work).value
    requires InPass(s.procs[h].pc) && PassOf(s, h) && PcOk(s.procs[h].pc, |s.ents|)
    requires !InDestroy(s.procs[Client(s.ents[e].work).value].pc)
    ensures PassOk(ReturnNext(s, e, ok, ended))
  {
    BystanderKept(s, ReturnNext(s, e, ok, ended), Client(s.ents[e].work).value, e, h);
  }

  /** A goroutine answering or going on: nobody's destroy during a pass, so a bystander. */
  lemma ReturnPass(s: System, e: nat, ok: bool, ended: Time)
    requires PassInv(s) && Enabled(s, Return(e, ok, ended))
    requires OnIn(s, Client(s.ents[e].work).value, e) && PcOf(s, Client(s.ents[e].work).value).Awaiting?
    requires !PcOf(s, Client(s.ents[e].work).value).k.KPass?
    requires s.ents[e].work.Removing? ==> PcOf(s, Client(s.ents[e].work).value).k.KDestroy?
    ensures PassOk(ReturnNext(s, e, ok, ended))
  {
    if s.adoptMu.Some? && s.adoptMu.value < |s.procs| && InPass(s.procs[s.adoptMu.value].pc) && !s.closing {
      PassMeans(s);
      BystanderReturn(s, e, ok, ended, s.adoptMu.value);
    }
  }

  lemma ForgetPass(s: System, p: nat)
    requires PassInv(s) && Enabled(s, Forget(p))
    ensures PassOk(ForgetNext(s, p))
  {
    if !s.closing && !NoPass(s) {
      PassMeans(s);
    }
    OthersPass(s, ForgetNext(s, p), p, |s.ents|);
  }

  lemma ClosePass(s: System, a: Action)
    requires PassInv(s) && Enabled(s, a) && Calm(s, a)
    requires a.BeginClose? || a.Collect? || a.CloseBackend? || a.SeeClosed?
    ensures PassOk(Next(s, a))
  {
    if !a.BeginClose? {
      OthersPass(s, Next(s, a), a.p, |s.ents|);
    }
  }

  lemma UnlockPass(s: System, a: Action)
    requires PassInv(s) && Enabled(s, a) && (a.Lock? || a.ListFails? || a.FinishPass?)
    ensures PassOk(Next(s, a))
  {
  }

  /** What a calm run keeps. */
  ghost predicate CalmInv(s: System) {
    Inv(s) && Covered(s) && Believed(s) && PassOk(s)
  }

  lemma WorkPass(s: System, a: Action)
    requires CalmInv(s) && Enabled(s, a) && (a.Take? || a.Return? || a.Adopt? || a.Fire?)
    ensures PassOk(Next(s, a))
  {
    if a.Take? {
      assert PcOk(s.procs[a.p].pc, |s.ents|);
      if PcOf(s, a.p).k.KPass? {
        TakeObservePass(s, a.p);
      } else {
        TakeServedPass(s, a.p);
      }
    } else if a.Return? {
      assert PcOk(s.procs[Client(s.ents[a.e].work).value].pc, |s.ents|);
      ReturnPass(s, a.e, a.ok, a.ended);
    } else if a.Fire? {
      assert InStep(s.ents[a.e], s.idle);
      FirePass(s, a.e);
    } else if PcOf(s, a.p).Walking? {
      PassAdoptPass(s, a.p);
    } else {
      CallerAdoptPass(s, a.p);
    }
  }

  lemma PassStep(s: System, a: Action)
    requires PassInv(s) && Covered(s) && Enabled(s, a) && Calm(s, a)
    requires !a.Take? && !a.Return? && !a.Adopt? && !a.Fire?
    ensures PassOk(Next(s, a))
  {
    match a
    case Gate(p) => GatePass(s, p);
    case ListReturns(p, found) => ListPass(s, p, found);
    case TurnAway(p) => TurnAwayPass(s, p);
    case Forget(p) => ForgetPass(s, p);
    case Call(_) => CallPass(s, a);
    case Tick(_) => CallPass(s, a);
    case Leave(_) => ExitPass(s, a);
    case Quit(_) => ExitPass(s, a);
    case BeginClose(_) => ClosePass(s, a);
    case Collect(_) => ClosePass(s, a);
    case CloseBackend(_, _) => ClosePass(s, a);
    case SeeClosed(_) => ClosePass(s, a);
    case Lock(_) => UnlockPass(s, a);
    case ListFails(_) => UnlockPass(s, a);
    case FinishPass(_) => UnlockPass(s, a);
    case _ =>
  }

  /** In a calm state every observation about to be recorded is of a fresh entry, and true. */
  lemma ObservationTrue(s: System, p: nat)
    requires CalmInv(s) && Enabled(s, Take(p)) && Observes(s, Take(p))
    ensures Believed(TakeNext(s, p))
  {
    assert PcOk(s.procs[p].pc, |s.ents|);
    assert HoldsLock(s.procs[p].pc);
    ObservationBelieved(s, p);
  }

  lemma CalmStep(s: System, a: Action)
    requires CalmInv(s) && Enabled(s, a) && Calm(s, a)
    ensures CalmInv(Next(s, a))
  {
    StepKeeps(s, a);
    CoveredStep(s, a);
    if a.Take? || a.Return? || a.Adopt? || a.Fire? {
      WorkPass(s, a);
    } else {
      PassStep(s, a);
    }
    if Observes(s, a) {
      ObservationTrue(s, a.p);
    } else {
      BelievedStep(s, a);
    }
  }

  ghost predicate CalmRun(states: seq<System>, actions: seq<Action>) {
    IsRun(states, actions) && forall i :: 0 <= i < |actions| ==> Calm(states[i], actions[i])
  }

  lemma {:induction false} CalmRunKeeps(states: seq<System>, actions: seq<Action>, i: nat)
    requires CalmRun(states, actions) && i < |states|
    ensures CalmInv(states[i])
  {
    if i == 0 {
      InitInv(states[0]);
    } else {
      CalmRunKeeps(states, actions, i - 1);
      CalmStep(states[i - 1], actions[i - 1]);
    }
  }

  /** In every calm run what an entry believes is what the backend holds: between requests, and
      with a call in flight of the state it falls back to. It is on the idle clock, with a timer for
      the deadline on record, exactly when Ready, and its snapshot is current. */
  lemma BeliefHolds(states: seq<System>, actions: seq<Action>, i: nat, e: nat)
    requires CalmRun(states, actions) && i < |states| && e < |states[i].ents|
    ensures var Ent(l, work) := states[i].ents[e];
            var boxes, name := states[i].boxes, l.spec.name;
            && ((work.Selecting? && l.state == Ready) || work.Running? || work.Halting? ==> name in boxes && boxes[name].running)
            && (work.Selecting? && l.state == Stopped ==> name in boxes && !boxes[name].running)
            && (work.Ensuring? || work.Removing? ==> Truth(work.prior, name, boxes))
            && (work.Selecting? ==>
                  && l.state in {Unknown, Ready, Stopped} && l.timer == l.due
                  && (l.due.Some? <==> l.state == Ready && states[i].idle > 0)
                  && l.snap == Info(name, l.state, l.spec.image, l.lastExec, l.due))
  {
    CalmRunKeeps(states, actions, i);
    assert BelievedEnt(states[i].ents[e], states[i].idle, states[i].boxes);
  }
}
