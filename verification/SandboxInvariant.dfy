/** What every reachable state of the manager keeps, whatever its callers do. */
module SandboxInvariant {
  import opened Wrappers
  import opened SandboxLife
  import opened SandboxSystem

  /** Between requests, even if a stale observation was recorded. */
  predicate Rested(l: Life, idle: Time) {
    && Resting(l.state) && l.SnapCurrent() && l.timer == l.due
    && (l.state == Ready && idle > 0 ==> l.due.Some?)
    && (l.due.Some? ==> idle > 0 && l.state != Unknown)
  }

  predicate OffTheClock(l: Life) {
    l.due.None? && l.timer.None? && l.SnapCurrent()
  }

  /** The life state and the goroutine's position agree. */
  predicate InStep(en: Ent, idle: Time) {
    var l := en.life;
    match en.work
    case Selecting => Rested(l, idle)
    case Ensuring(_, prior) => l.state == Preparing && prior in {Unknown, Stopped} && OffTheClock(l)
    case Running(_, _) => l.state == Executing && OffTheClock(l)
    case Halting(_) => l.state == Stopping && l.SnapCurrent() && l.timer == l.due && l.due.Some? && idle > 0
    case Removing(_, prior) => l.state == Destroying && Resting(prior) && OffTheClock(l)
    case Leaving => l.state == Destroyed && OffTheClock(l)
    case Gone(why) => OffTheClock(l) && (why == WasDestroyed <==> l.state == Destroyed)
                      && (why == WasShutDown ==> Resting(l.state))
  }

  predicate ReqFits(req: Req, k: Cont) {
    match req
    case RExec => k.KExec?
    case RIdle(_) => k.KIdle?
    case RDestroy => k.KDestroy?
    case RObserve(found) => k.KPass? && (found == Ready || found == Stopped)
  }

  predicate WorkFits(w: Work, req: Req) {
    match w
    case Ensuring(_, _) => req.RExec?
    case Running(_, _) => req.RExec?
    case Halting(_) => req.RIdle?
    case Removing(_, _) => req.RDestroy?
    case _ => false
  }

  predicate AfterOk(after: After, n: nat) {
    after.ThenExec? ==> after.e < n
  }

  predicate PcOk(pc: Pc, n: nat) {
    match pc
    case ExecCalled(e) => e < n
    case ExecLocking(e) => e < n
    case Forgetting(e) => e < n
    case Listing(after) => AfterOk(after, n)
    case Walking(_, after) => AfterOk(after, n)
    case Asking(e, req, k) => e < n && ReqFits(req, k) && (k.KPass? ==> AfterOk(k.after, n))
    case Awaiting(e, req, k) => e < n && ReqFits(req, k) && !k.KPass?
    case Draining(known) => forall e :: e in known ==> e < n
    case _ => true
  }

  ghost predicate Shape(s: System) {
    && (forall n :: n in s.table ==> s.table[n] < |s.ents| && s.ents[s.table[n]].life.spec.name == n)
    && (forall p: nat :: p < |s.procs| ==> PcOk(s.procs[p].pc, |s.ents|))
    && (forall e: nat :: e < |s.ents| ==> InStep(s.ents[e], s.idle))
  }

  /** The goroutine serving a caller and the caller waiting for it are each other's only one. */
  ghost predicate Paired(s: System) {
    && (forall e: nat :: e < |s.ents| && Client(s.ents[e].work).Some? ==>
          var p := Client(s.ents[e].work).value;
          p < |s.procs| && s.procs[p].pc.Awaiting? && s.procs[p].pc.e == e && WorkFits(s.ents[e].work, s.procs[p].pc.req))
    && (forall p: nat :: p < |s.procs| && s.procs[p].pc.Awaiting? ==>
          s.procs[p].pc.e < |s.ents| && Client(s.ents[s.procs[p].pc.e].work) == Some(p))
  }

  /** Every request taken is answered once: the one still waiting is the one not answered. */
  ghost predicate Counted(s: System) {
    forall p: nat :: p < |s.procs| ==>
      s.procs[p].taken == s.procs[p].answered + if s.procs[p].pc.Awaiting? then 1 else 0
  }

  ghost predicate Locked(s: System) {
    && (s.adoptMu.Some? ==> s.adoptMu.value < |s.procs|)
    && forall p: nat :: p < |s.procs| ==> (HoldsLock(s.procs[p].pc) <==> s.adoptMu == Some(p))
  }

  /** A goroutine that can still call the backend is the one its name leads to, and a destroyed
      entry keeps its place until its destroyer has forgotten it. */
  ghost predicate OnePerName(s: System) {
    && (forall e: nat :: e < |s.ents| && Live(s.ents[e]) ==> s.ents[e].life.spec.name in s.table && s.table[s.ents[e].life.spec.name] == e)
    && (forall p: nat :: p < |s.procs| && s.procs[p].pc.Forgetting? ==>
          var e := s.procs[p].pc.e;
          && e < |s.ents| && !Live(s.ents[e]) && s.ents[e].life.state == Destroyed
          && s.ents[e].life.spec.name in s.table && s.table[s.ents[e].life.spec.name] == e)
    && (forall p: nat, q: nat :: p < q < |s.procs| && s.procs[p].pc.Forgetting? && s.procs[q].pc.Forgetting? ==>
          s.procs[p].pc.e != s.procs[q].pc.e)
  }

  predicate CloserPc(pc: Pc) {
    pc.Collecting? || pc.Draining?
  }

  ghost predicate Drained(s: System) {
    && (s.closing <==> s.closer.Some?)
    && (s.closer.Some? ==> s.closer.value < |s.procs|)
    && (forall p: nat :: p < |s.procs| && CloserPc(s.procs[p].pc) ==> s.closer == Some(p) && s.closeAnswer.None?)
    && (s.closeAnswer.Some? ==> s.closing && forall e: nat :: e < |s.ents| ==> !Live(s.ents[e]))
    && (forall p: nat :: p < |s.procs| && s.procs[p].pc.Draining? ==>
          forall e: nat :: e < |s.ents| && Live(s.ents[e]) ==> e in s.procs[p].pc.known)
    && (forall p: nat :: p < |s.procs| && s.procs[p].pc.Done? && s.procs[p].pc.out.CloseSaid? ==>
          s.closeAnswer == Some(s.procs[p].pc.out.failed))
    && (forall e: nat :: e < |s.ents| && s.ents[e].work == Gone(WasShutDown) ==> s.closing)
  }

  ghost predicate Inv(s: System) {
    Shape(s) && Paired(s) && Counted(s) && Locked(s) && OnePerName(s) && Drained(s)
  }

  lemma InitInv(s: System)
    requires Init(s)
    ensures Inv(s)
  {
  }

  // ---------------------------------------------------------------- one step at a time

  /** t is s with at most caller p and entry e changed or added. */
  ghost predicate Delta(s: System, t: System, p: nat, e: nat) {
    && t.idle == s.idle
    && |s.procs| <= |t.procs| <= |s.procs| + 1 && (|t.procs| > |s.procs| ==> p == |s.procs|)
    && |s.ents| <= |t.ents| <= |s.ents| + 1 && (|t.ents| > |s.ents| ==> e == |s.ents|)
    && (forall q: nat :: q < |s.procs| && q != p ==> t.procs[q] == s.procs[q])
    && (forall d: nat :: d < |s.ents| && d != e ==> t.ents[d] == s.ents[d])
    && (e < |s.ents| ==> t.ents[e].life.spec == s.ents[e].life.spec)
  }

  predicate ShapeAt(s: System, t: System, p: nat, e: nat) {
    && (p < |t.procs| ==> PcOk(t.procs[p].pc, |t.ents|))
    && (e < |t.ents| ==> InStep(t.ents[e], t.idle))
    && (t.table == s.table
        || (exists n | n in s.table :: t.table == s.table - {n})
        || (e == |s.ents| < |t.ents| && t.table == s.table[t.ents[e].life.spec.name := e]))
  }

  lemma ShapeKept(s: System, t: System, p: nat, e: nat)
    requires Shape(s) && Delta(s, t, p, e) && ShapeAt(s, t, p, e)
    ensures Shape(t)
  {
    forall q: nat | q < |t.procs|
      ensures PcOk(t.procs[q].pc, |t.ents|)
    {
      if q != p {
        assert PcOk(s.procs[q].pc, |s.ents|);
      }
    }
  }

  predicate PairedAt(s: System, t: System, p: nat, e: nat) {
    && (e < |t.ents| && Client(t.ents[e].work).Some? ==>
          if Client(t.ents[e].work) == Some(p)
          then p < |t.procs| && t.procs[p].pc.Awaiting? && t.procs[p].pc.e == e && WorkFits(t.ents[e].work, t.procs[p].pc.req)
          else e < |s.ents| && s.ents[e] == t.ents[e])
    && (e < |s.ents| && e < |t.ents| && Client(s.ents[e].work).Some? && Client(t.ents[e].work) != Client(s.ents[e].work) ==>
          Client(s.ents[e].work) == Some(p))
    && (p < |t.procs| && t.procs[p].pc.Awaiting? ==>
          if t.procs[p].pc.e == e then e < |t.ents| && Client(t.ents[e].work) == Some(p)
          else p < |s.procs| && s.procs[p] == t.procs[p])
    && (p < |s.procs| && p < |t.procs| && s.procs[p].pc.Awaiting? && t.procs[p].pc != s.procs[p].pc ==>
          s.procs[p].pc.e == e)
  }

  lemma PairedKept(s: System, t: System, p: nat, e: nat)
    requires Paired(s) && Delta(s, t, p, e) && PairedAt(s, t, p, e)
    ensures Paired(t)
  {
  }

  predicate CountedAt(t: System, p: nat) {
    p < |t.procs| ==> t.procs[p].taken == t.procs[p].answered + if t.procs[p].pc.Awaiting? then 1 else 0
  }

  lemma CountedKept(s: System, t: System, p: nat, e: nat)
    requires Counted(s) && Delta(s, t, p, e) && CountedAt(t, p)
    ensures Counted(t)
  {
  }

  predicate LockedAt(s: System, t: System, p: nat) {
    && (p < |t.procs| ==> (HoldsLock(t.procs[p].pc) <==> t.adoptMu == Some(p)))
    && (t.adoptMu == s.adoptMu || ((t.adoptMu.None? || s.adoptMu.None?)
                                   && (t.adoptMu == Some(p) || s.adoptMu == Some(p)) && p < |t.procs|))
  }

  lemma LockedKept(s: System, t: System, p: nat, e: nat)
    requires Locked(s) && Delta(s, t, p, e) && LockedAt(s, t, p)
    ensures Locked(t)
  {
  }

  predicate OneAt(s: System, t: System, p: nat, e: nat) {
    && (e < |t.ents| && Live(t.ents[e]) ==> t.ents[e].life.spec.name in t.table && t.table[t.ents[e].life.spec.name] == e)
    && (e < |s.ents| && e < |t.ents| && !Live(s.ents[e]) ==> !Live(t.ents[e]) && t.ents[e].life.state == s.ents[e].life.state)
    && (p < |t.procs| && t.procs[p].pc.Forgetting? ==>
          && t.table == s.table
          && (p < |s.procs| && s.procs[p].pc.Forgetting? ==> t.procs[p] == s.procs[p])
          && (p < |s.procs| && !s.procs[p].pc.Forgetting? ==>
                && t.procs[p].pc.e == e < |s.ents| <= |t.ents| && Live(s.ents[e]) && !Live(t.ents[e])
                && t.ents[e].life.state == Destroyed)
          && p < |s.procs|)
    && (t.table == s.table
        || (e == |s.ents| < |t.ents| && t.ents[e].life.spec.name !in s.table && t.table == s.table[t.ents[e].life.spec.name := e])
        || (&& p < |s.procs| && s.procs[p].pc.Forgetting? && s.procs[p].pc.e < |s.ents| && t.ents == s.ents
            && p < |t.procs| && !t.procs[p].pc.Forgetting?
            && t.table == s.table - {s.ents[s.procs[p].pc.e].life.spec.name}))
  }

  lemma OnePerNameKept(s: System, t: System, p: nat, e: nat)
    requires OnePerName(s) && Delta(s, t, p, e) && OneAt(s, t, p, e)
    ensures OnePerName(t)
  {
  }

  ghost predicate DrainedAt(s: System, t: System, p: nat, e: nat) {
    && ((t.closing == s.closing && t.closer == s.closer)
        || (s.closer.None? && t.closer == Some(p) && t.closing && p < |t.procs|))
    && (t.closeAnswer == s.closeAnswer || (s.closer == t.closer == Some(p) && s.closeAnswer.None? && t.closeAnswer.Some?
                                           && forall d: nat :: d < |t.ents| ==> !Live(t.ents[d])))
    && (p < |t.procs| && CloserPc(t.procs[p].pc) ==> t.closer == Some(p) && t.closeAnswer.None?)
    && (p < |t.procs| && t.procs[p].pc.Done? && t.procs[p].pc.out.CloseSaid? ==> t.closeAnswer == Some(t.procs[p].pc.out.failed))
    && (e < |t.ents| && Live(t.ents[e]) ==> (e < |s.ents| && Live(s.ents[e])) || !t.closing)
    && (p < |t.procs| && t.procs[p].pc.Draining? && (p < |s.procs| ==> t.procs[p].pc != s.procs[p].pc) ==>
          forall d: nat :: d < |t.ents| && Live(t.ents[d]) ==> d in t.procs[p].pc.known)
    && (e < |t.ents| && t.ents[e].work == Gone(WasShutDown) ==> t.closing)
  }

  lemma DrainedKept(s: System, t: System, p: nat, e: nat)
    requires Drained(s) && Delta(s, t, p, e) && DrainedAt(s, t, p, e)
    ensures Drained(t)
  {
  }

  lemma DeltaKeeps(s: System, t: System, p: nat, e: nat)
    requires Inv(s) && Delta(s, t, p, e)
    requires ShapeAt(s, t, p, e) && PairedAt(s, t, p, e) && CountedAt(t, p) && LockedAt(s, t, p)
    requires OneAt(s, t, p, e) && DrainedAt(s, t, p, e)
    ensures Inv(t)
  {
    ShapeKept(s, t, p, e);
    PairedKept(s, t, p, e);
    CountedKept(s, t, p, e);
    LockedKept(s, t, p, e);
    OnePerNameKept(s, t, p, e);
    DrainedKept(s, t, p, e);
  }

  /** A caller moves on, with nothing taken, answered, locked, destroyed or closed by it. */
  lemma MoveKeeps(s: System, p: nat, pc: Pc)
    requires Inv(s) && HasPc(s, p) && PcOk(pc, |s.ents|)
    requires !PcOf(s, p).Awaiting? && !pc.Awaiting? && !pc.Forgetting? && !CloserPc(pc)
    requires HoldsLock(PcOf(s, p)) == HoldsLock(pc)
    requires pc.Done? && pc.out.CloseSaid? ==> s.closeAnswer == Some(pc.out.failed)
    ensures Inv(SetPc(s, p, pc))
  {
    DeltaKeeps(s, SetPc(s, p, pc), p, |s.ents|);
  }

  /** A caller lets go of adoptMu. */
  lemma UnlockKeeps(s: System, p: nat, pc: Pc, adopted: bool)
    requires Inv(s) && HasPc(s, p) && PcOk(pc, |s.ents|)
    requires !PcOf(s, p).Awaiting? && !pc.Awaiting? && !pc.Forgetting? && !CloserPc(pc)
    requires HoldsLock(PcOf(s, p)) && !HoldsLock(pc)
    requires !(pc.Done? && pc.out.CloseSaid?)
    ensures Inv(SetPc(s.(adoptMu := None, adopted := adopted), p, pc))
  {
    DeltaKeeps(s, SetPc(s.(adoptMu := None, adopted := adopted), p, pc), p, |s.ents|);
  }

  lemma PassFailedKeeps(s: System, p: nat, after: After, fault: Fault)
    requires Inv(s) && HasPc(s, p) && HoldsLock(PcOf(s, p)) && AfterOk(after, |s.ents|)
    ensures Inv(PassFailed(s, p, after, fault))
  {
    UnlockKeeps(s, p, PcOf(PassFailed(s, p, after, fault), p), s.adopted);
  }

  lemma TickKeeps(s: System, passed: nat)
    requires Inv(s) && Enabled(s, Tick(passed))
    ensures Inv(Next(s, Tick(passed)))
  {
    DeltaKeeps(s, Next(s, Tick(passed)), |s.procs|, |s.ents|);
  }

  lemma CallKeeps(s: System, pc: Pc)
    requires Inv(s) && Enabled(s, Call(pc))
    ensures Inv(Next(s, Call(pc)))
  {
    DeltaKeeps(s, Next(s, Call(pc)), |s.procs|, |s.ents|);
  }

  /** A name gets an entry, and the caller moves on to use it. */
  lemma NewEntryKeeps(s: System, p: nat, spec: Spec, pc: Pc)
    requires Inv(s) && HasPc(s, p) && !s.closing && spec.name !in s.table && PcOk(pc, |s.ents| + 1)
    requires !PcOf(s, p).Awaiting? && !pc.Awaiting? && !pc.Forgetting? && !CloserPc(pc)
    requires HoldsLock(PcOf(s, p)) == HoldsLock(pc) && !(pc.Done? && pc.out.CloseSaid?)
    ensures Inv(SetPc(s.(table := s.table[spec.name := |s.ents|], ents := s.ents + [Ent(NewLife(spec), Selecting)]), p, pc))
  {
    DeltaKeeps(s, SetPc(s.(table := s.table[spec.name := |s.ents|], ents := s.ents + [Ent(NewLife(spec), Selecting)]), p, pc), p, |s.ents|);
  }

  lemma OpenCalledAdoptKeeps(s: System, p: nat)
    requires Inv(s) && HasPc(s, p) && PcOf(s, p).OpenCalled?
    ensures Inv(AdoptNext(s, p))
  {
    var pc := PcOf(AdoptNext(s, p), p);
    if s.closing || PcOf(s, p).name in s.table {
      MoveKeeps(s, p, pc);
    } else {
      NewEntryKeeps(s, p, Spec(PcOf(s, p).name, s.image), pc);
    }
  }

  lemma DestroyCalledAdoptKeeps(s: System, p: nat)
    requires Inv(s) && HasPc(s, p) && PcOf(s, p).DestroyCalled?
    ensures Inv(AdoptNext(s, p))
  {
    var pc := PcOf(AdoptNext(s, p), p);
    if s.closing || PcOf(s, p).name in s.table {
      MoveKeeps(s, p, pc);
    } else {
      NewEntryKeeps(s, p, Spec(PcOf(s, p).name, ""), pc);
    }
  }

  lemma WalkingAdoptKeeps(s: System, p: nat)
    requires Inv(s) && HasPc(s, p) && PcOf(s, p).Walking? && PcOf(s, p).todo != []
    ensures Inv(AdoptNext(s, p))
  {
    assert PcOk(s.procs[p].pc, |s.ents|);
    var pc, found := PcOf(AdoptNext(s, p), p), PcOf(s, p).todo[0];
    if s.closing {
      PassFailedKeeps(s, p, PcOf(s, p).after, Refused);
    } else if found.name in s.table {
      MoveKeeps(s, p, pc);
    } else {
      NewEntryKeeps(s, p, Spec(found.name, found.box.image), pc);
    }
  }

  lemma AdoptKeeps(s: System, p: nat)
    requires Inv(s) && Enabled(s, Adopt(p))
    ensures Inv(AdoptNext(s, p))
  {
    match PcOf(s, p)
    case OpenCalled(_) => OpenCalledAdoptKeeps(s, p);
    case DestroyCalled(_) => DestroyCalledAdoptKeeps(s, p);
    case Walking(_, _) => WalkingAdoptKeeps(s, p);
  }

  lemma GateKeeps(s: System, p: nat)
    requires Inv(s) && Enabled(s, Gate(p))
    ensures Inv(Next(s, Gate(p)))
  {
    MoveKeeps(s, p, PcOf(GateNext(s, p), p));
  }

  lemma LockKeeps(s: System, p: nat)
    requires Inv(s) && Enabled(s, Lock(p))
    ensures Inv(Next(s, Lock(p)))
  {
    DeltaKeeps(s, Next(s, Lock(p)), p, |s.ents|);
  }

  lemma ListFailsKeeps(s: System, p: nat)
    requires Inv(s) && Enabled(s, ListFails(p))
    ensures Inv(Next(s, ListFails(p)))
  {
    PassFailedKeeps(s, p, PcOf(s, p).after, FromBackend);
  }

  lemma ListReturnsKeeps(s: System, p: nat, found: seq<Found>)
    requires Inv(s) && Enabled(s, ListReturns(p, found))
    ensures Inv(Next(s, ListReturns(p, found)))
  {
    MoveKeeps(s, p, Walking(found, PcOf(s, p).after));
  }

  lemma FinishPassKeeps(s: System, p: nat)
    requires Inv(s) && Enabled(s, FinishPass(p))
    ensures Inv(Next(s, FinishPass(p)))
  {
    UnlockKeeps(s, p, PcOf(FinishNext(s, p), p), true);
  }

  /** Serving leaves an entry in step with the request it took. */
  lemma ServeInStep(l: Life, req: Req, k: Cont, p: nat, now: Time, idle: Time)
    requires InStep(Ent(l, Selecting), idle) && ReqFits(req, k)
    ensures var r := Serve(l, req, p, now, idle);
            && InStep(Ent(r.life, r.work), idle) && r.life.spec == l.spec && r.life.state != Destroyed
            && (r.work.Selecting? || (Client(r.work) == Some(p) && WorkFits(r.work, req) && !k.KPass?))
  {
  }

  /** Entry e and caller p, one serving the other, are all that changes. */
  lemma ServedKeeps(s: System, p: nat, e: nat, en: Ent, proc: Proc, boxes: map<string, Box>, log: seq<Mark>)
    requires Inv(s) && p < |s.procs| && e < |s.ents| && Live(s.ents[e])
    requires en.life.spec == s.ents[e].life.spec && !en.work.Gone? && InStep(en, s.idle)
    requires PcOk(proc.pc, |s.ents|) && HoldsLock(proc.pc) == HoldsLock(s.procs[p].pc)
    requires !CloserPc(proc.pc) && !(proc.pc.Done? && proc.pc.out.CloseSaid?)
    requires proc.taken == proc.answered + if proc.pc.Awaiting? then 1 else 0
    requires Client(s.ents[e].work).Some? ==> Client(s.ents[e].work) == Some(p)
    requires s.procs[p].pc.Awaiting? ==> s.procs[p].pc.e == e
    requires if proc.pc.Awaiting? then proc.pc.e == e && Client(en.work) == Some(p) && WorkFits(en.work, proc.pc.req)
             else Client(en.work).None?
    requires proc.pc.Forgetting? <==> en.work.Leaving?
    requires proc.pc.Forgetting? ==> proc.pc.e == e && en.life.state == Destroyed && !s.procs[p].pc.Forgetting?
    ensures Inv(s.(ents := s.ents[e := en], procs := s.procs[p := proc], boxes := boxes, log := log))
  {
    DeltaKeeps(s, s.(ents := s.ents[e := en], procs := s.procs[p := proc], boxes := boxes, log := log), p, e);
  }

  /** A request that fits its entry is taken. */
  lemma TakenKeeps(s: System, p: nat)
    requires Inv(s) && HasPc(s, p) && PcOf(s, p).Asking? && PcOf(s, p).e < |s.ents| && s.ents[PcOf(s, p).e].work.Selecting?
    requires var Asking(e, req, k) := PcOf(s, p);
             var r := Serve(s.ents[e].life, req, p, s.now, s.idle);
             && PcOk(s.procs[p].pc, |s.ents|) && InStep(Ent(r.life, r.work), s.idle) && r.life.spec == s.ents[e].life.spec
             && (r.work.Selecting? || (Client(r.work) == Some(p) && WorkFits(r.work, req) && !k.KPass?))
    ensures Inv(TakeNext(s, p))
  {
    var t, e := TakeNext(s, p), PcOf(s, p).e;
    assert t.procs[p].taken == t.procs[p].answered + if t.procs[p].pc.Awaiting? then 1 else 0;
    ServedKeeps(s, p, e, t.ents[e], t.procs[p], t.boxes, t.log);
  }

  lemma TakeExecKeeps(s: System, p: nat)
    requires Inv(s) && HasPc(s, p) && PcOf(s, p).Asking? && PcOf(s, p).k.KExec?
    requires PcOf(s, p).e < |s.ents| && s.ents[PcOf(s, p).e].work.Selecting?
    ensures Inv(TakeNext(s, p))
  {
    var Asking(e, req, k) := PcOf(s, p);
    assert PcOk(s.procs[p].pc, |s.ents|) && InStep(s.ents[e], s.idle);
    ServeInStep(s.ents[e].life, req, k, p, s.now, s.idle);
    TakenKeeps(s, p);
  }

  lemma TakeIdleKeeps(s: System, p: nat)
    requires Inv(s) && HasPc(s, p) && PcOf(s, p).Asking? && PcOf(s, p).k.KIdle?
    requires PcOf(s, p).e < |s.ents| && s.ents[PcOf(s, p).e].work.Selecting?
    ensures Inv(TakeNext(s, p))
  {
    var Asking(e, req, k) := PcOf(s, p);
    assert PcOk(s.procs[p].pc, |s.ents|) && InStep(s.ents[e], s.idle);
    ServeInStep(s.ents[e].life, req, k, p, s.now, s.idle);
    TakenKeeps(s, p);
  }

  lemma TakeDestroyKeeps(s: System, p: nat)
    requires Inv(s) && HasPc(s, p) && PcOf(s, p).Asking? && PcOf(s, p).k.KDestroy?
    requires PcOf(s, p).e < |s.ents| && s.ents[PcOf(s, p).e].work.Selecting?
    ensures Inv(TakeNext(s, p))
  {
    var Asking(e, req, k) := PcOf(s, p);
    assert PcOk(s.procs[p].pc, |s.ents|) && InStep(s.ents[e], s.idle);
    ServeInStep(s.ents[e].life, req, k, p, s.now, s.idle);
    TakenKeeps(s, p);
  }

  lemma TakeObserveKeeps(s: System, p: nat)
    requires Inv(s) && HasPc(s, p) && PcOf(s, p).Asking? && PcOf(s, p).k.KPass?
    requires PcOf(s, p).e < |s.ents| && s.ents[PcOf(s, p).e].work.Selecting?
    ensures Inv(TakeNext(s, p))
  {
    var Asking(e, req, k) := PcOf(s, p);
    assert PcOk(s.procs[p].pc, |s.ents|) && InStep(s.ents[e], s.idle);
    ServeInStep(s.ents[e].life, req, k, p, s.now, s.idle);
    TakenKeeps(s, p);
  }

  lemma TakeKeeps(s: System, p: nat)
    requires Inv(s) && Enabled(s, Take(p))
    ensures Inv(TakeNext(s, p))
  {
    match PcOf(s, p).k
    case KExec => TakeExecKeeps(s, p);
    case KIdle => TakeIdleKeeps(s, p);
    case KDestroy => TakeDestroyKeeps(s, p);
    case KPass(_, _) => TakeObserveKeeps(s, p);
  }

  lemma TurnAwayKeeps(s: System, p: nat)
    requires Inv(s) && HasPc(s, p) && PcOf(s, p).Asking?
    requires PcOf(s, p).e < |s.ents| && s.ents[PcOf(s, p).e].work.Gone?
    ensures Inv(TurnAwayNext(s, p))
  {
    var fault := NotTaken(s.ents[PcOf(s, p).e].work.why);
    assert PcOk(s.procs[p].pc, |s.ents|);
    if PcOf(s, p).k.KPass? {
      PassFailedKeeps(s, p, PcOf(s, p).k.after, fault);
    } else {
      MoveKeeps(s, p, Done(Failed(fault)));
    }
  }

  function Back(s: System, e: nat, ok: bool, ended: Time): Returned
    requires e < |s.ents| && Client(s.ents[e].work).Some?
  {
    Resume(s.ents[e].life, e, s.ents[e].work, ok, ended, s.now, s.idle, s.boxes)
  }

  /** A call in flight returns, and another one follows it. */
  lemma ReturnedMore(s: System, e: nat, ok: bool, ended: Time)
    requires Inv(s) && e < |s.ents| && Client(s.ents[e].work).Some? && Back(s, e, ok, ended).reply.None?
    ensures HasPc(s, Client(s.ents[e].work).value)
    ensures Inv(ReturnNext(s, e, ok, ended))
  {
    var p, t := Client(s.ents[e].work).value, ReturnNext(s, e, ok, ended);
    assert InStep(s.ents[e], s.idle) && PcOk(s.procs[p].pc, |s.ents|);
    ResumeInStep(s.ents[e], e, ok, ended, s.now, s.idle, s.boxes);
    assert t.procs == s.procs[p := s.procs[p]];
    ServedKeeps(s, p, e, t.ents[e], s.procs[p], t.boxes, t.log);
  }

  /** Or its client has its answer. */
  lemma ReturnedReply(s: System, e: nat, ok: bool, ended: Time)
    requires Inv(s) && e < |s.ents| && Client(s.ents[e].work).Some? && Back(s, e, ok, ended).reply.Some?
    ensures HasPc(s, Client(s.ents[e].work).value)
    ensures Inv(ReturnNext(s, e, ok, ended))
  {
    var p, t := Client(s.ents[e].work).value, ReturnNext(s, e, ok, ended);
    assert InStep(s.ents[e], s.idle) && PcOk(s.procs[p].pc, |s.ents|);
    ResumeInStep(s.ents[e], e, ok, ended, s.now, s.idle, s.boxes);
    ServedKeeps(s, p, e, t.ents[e], t.procs[p], t.boxes, t.log);
  }

  /** What a return leads to fits: more of the same request, or its answer. */
  lemma ResumeInStep(en: Ent, e: nat, ok: bool, ended: Time, now: Time, idle: Time, boxes: map<string, Box>)
    requires Client(en.work).Some? && InStep(en, idle)
    ensures var r := Resume(en.life, e, en.work, ok, ended, now, idle, boxes);
            && InStep(Ent(r.life, r.work), idle) && r.life.spec == en.life.spec && !r.work.Gone?
            && (if r.reply.None? then Client(r.work) == Client(en.work) && (WorkFits(en.work, RExec) && WorkFits(r.work, RExec))
                else && Client(r.work).None? && (r.reply.value.Done? || r.reply.value == Forgetting(e))
                     && (r.reply.value.Done? ==> !r.reply.value.out.CloseSaid? && !r.work.Leaving?)
                     && (r.reply.value.Forgetting? ==> r.work.Leaving? && r.life.state == Destroyed))
  {
  }

  lemma ReturnKeeps(s: System, e: nat, ok: bool, ended: Time)
    requires Inv(s) && Enabled(s, Return(e, ok, ended))
    ensures Inv(ReturnNext(s, e, ok, ended))
  {
    if Back(s, e, ok, ended).reply.None? {
      ReturnedMore(s, e, ok, ended);
    } else {
      ReturnedReply(s, e, ok, ended);
    }
  }

  lemma LeaveKeeps(s: System, e: nat)
    requires Inv(s) && Enabled(s, Leave(e))
    ensures Inv(Next(s, Leave(e)))
  {
    DeltaKeeps(s, Next(s, Leave(e)), |s.procs|, e);
  }

  lemma QuitKeeps(s: System, e: nat)
    requires Inv(s) && Enabled(s, Quit(e))
    ensures Inv(Next(s, Quit(e)))
  {
    DeltaKeeps(s, Next(s, Quit(e)), |s.procs|, e);
  }

  lemma ForgetKeeps(s: System, p: nat)
    requires Inv(s) && Enabled(s, Forget(p))
    ensures Inv(Next(s, Forget(p)))
  {
    DeltaKeeps(s, Next(s, Forget(p)), p, |s.ents|);
  }

  lemma FireKeeps(s: System, e: nat)
    requires Inv(s) && Enabled(s, Fire(e))
    ensures Inv(Next(s, Fire(e)))
  {
    DeltaKeeps(s, Next(s, Fire(e)), |s.procs|, e);
  }

  lemma BeginCloseKeeps(s: System, p: nat)
    requires Inv(s) && Enabled(s, BeginClose(p))
    ensures Inv(Next(s, BeginClose(p)))
  {
    DeltaKeeps(s, Next(s, BeginClose(p)), p, |s.ents|);
  }

  lemma CollectKeeps(s: System, p: nat)
    requires Inv(s) && Enabled(s, Collect(p))
    ensures Inv(Next(s, Collect(p)))
  {
    DeltaKeeps(s, Next(s, Collect(p)), p, |s.ents|);
  }

  lemma CloseBackendKeeps(s: System, p: nat, failed: bool)
    requires Inv(s) && Enabled(s, CloseBackend(p, failed))
    ensures Inv(Next(s, CloseBackend(p, failed)))
  {
    DeltaKeeps(s, Next(s, CloseBackend(p, failed)), p, |s.ents|);
  }

  lemma SeeClosedKeeps(s: System, p: nat)
    requires Inv(s) && Enabled(s, SeeClosed(p))
    ensures Inv(Next(s, SeeClosed(p)))
  {
    MoveKeeps(s, p, Done(CloseSaid(s.closeAnswer.value)));
  }

  lemma CallerStepKeeps(s: System, a: Action)
    requires Inv(s) && Enabled(s, a)
    requires a.Tick? || a.Call? || a.Adopt? || a.Gate? || a.Lock? || a.ListFails? || a.ListReturns? || a.FinishPass? || a.Take?
    ensures Inv(Next(s, a))
  {
    match a
    case Tick(passed) => TickKeeps(s, passed);
    case Call(pc) => CallKeeps(s, pc);
    case Adopt(p) => AdoptKeeps(s, p);
    case Gate(p) => GateKeeps(s, p);
    case Lock(p) => LockKeeps(s, p);
    case ListFails(p) => ListFailsKeeps(s, p);
    case ListReturns(p, found) => ListReturnsKeeps(s, p, found);
    case FinishPass(p) => FinishPassKeeps(s, p);
    case Take(p) => TakeKeeps(s, p);
    case _ =>
  }

  /** Every step keeps the invariant. */
  lemma CloseStepKeeps(s: System, a: Action)
    requires Inv(s) && Enabled(s, a) && (a.BeginClose? || a.Collect? || a.CloseBackend? || a.SeeClosed?)
    ensures Inv(Next(s, a))
  {
    match a
    case BeginClose(p) => BeginCloseKeeps(s, p);
    case Collect(p) => CollectKeeps(s, p);
    case CloseBackend(p, failed) => CloseBackendKeeps(s, p, failed);
    case SeeClosed(p) => SeeClosedKeeps(s, p);
  }

  lemma GoroutineStepKeeps(s: System, a: Action)
    requires Inv(s) && Enabled(s, a) && (a.TurnAway? || a.Return? || a.Leave? || a.Quit? || a.Forget? || a.Fire?)
    ensures Inv(Next(s, a))
  {
    match a
    case TurnAway(p) => TurnAwayKeeps(s, p);
    case Return(e, ok, ended) => ReturnKeeps(s, e, ok, ended);
    case Leave(e) => LeaveKeeps(s, e);
    case Quit(e) => QuitKeeps(s, e);
    case Forget(p) => ForgetKeeps(s, p);
    case Fire(e) => FireKeeps(s, e);
  }

  lemma StepKeeps(s: System, a: Action)
    requires Inv(s) && Enabled(s, a)
    ensures Inv(Next(s, a))
  {
    match a
    case TurnAway(_) => GoroutineStepKeeps(s, a);
    case Return(_, _, _) => GoroutineStepKeeps(s, a);
    case Leave(_) => GoroutineStepKeeps(s, a);
    case Quit(_) => GoroutineStepKeeps(s, a);
    case Forget(_) => GoroutineStepKeeps(s, a);
    case Fire(_) => GoroutineStepKeeps(s, a);
    case BeginClose(_) => CloseStepKeeps(s, a);
    case Collect(_) => CloseStepKeeps(s, a);
    case CloseBackend(_, _) => CloseStepKeeps(s, a);
    case SeeClosed(_) => CloseStepKeeps(s, a);
    case _ => CallerStepKeeps(s, a);
  }
}
