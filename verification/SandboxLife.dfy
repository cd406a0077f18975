/** One named sandbox's lifecycle: the values its goroutine keeps
    (metaharness/sandbox/manager.go, type entry), the transitions its methods make on them, and
    the class whose methods make them in place against a fallible backend. */
module SandboxLife {
  import opened Wrappers

  type Time = int

  datatype State =
    | Unknown | Preparing | Ready | Executing | Stopping | Stopped | Destroying | Destroyed

  datatype Spec = Spec(name: string, image: string)

  datatype Info = Info(name: string, state: State, image: string, lastExec: Option<Time>, dueAt: Option<Time>)

  /** The fields only the goroutine touches, and the snapshot Inspect reads. A timer is known by
      the deadline its wakeup carries; a zero time is None. */
  datatype Life = Life(spec: Spec, state: State, due: Option<Time>, lastExec: Option<Time>,
                       timer: Option<Time>, snap: Info)
  {
    function Published(): Info {
      Info(spec.name, state, spec.image, lastExec, due)
    }

    predicate SnapCurrent() {
      snap == Published()
    }
  }

  /** What the backend holds under one name. */
  datatype Box = Box(image: string, running: bool)

  // ---------------------------------------------------------------- transitions

  function WithSnap(l: Life): Life {
    l.(snap := l.Published())
  }

  function NewLife(spec: Spec): Life {
    WithSnap(Life(spec, Unknown, None, None, None, Info("", Unknown, "", None, None)))
  }

  function WithState(l: Life, st: State): Life {
    WithSnap(l.(state := st))
  }

  function OffClock(l: Life): Life {
    WithSnap(l.(timer := None, due := None))
  }

  function OnClock(l: Life, now: Time, idle: Time): Life {
    var off := OffClock(l);
    if idle <= 0 then off
    else WithSnap(off.(due := Some(now + idle), timer := Some(now + idle)))
  }

  /** A command is taken: off the idle clock, and into the backend call it needs first. */
  function ExecTaken(l: Life): Life {
    WithState(OffClock(l), if l.state == Ready then Executing else Preparing)
  }

  function PrepareFailed(l: Life, prior: State): Life {
    WithState(l, prior)
  }

  function Prepared(l: Life): Life {
    WithState(l, Executing)
  }

  function ExecDone(l: Life, ended: Time, now: Time, idle: Time): Life {
    OnClock(WithState(l.(lastExec := Some(ended)), Ready), now, idle)
  }

  predicate IdleDue(l: Life, due: Time) {
    l.state == Ready && l.due == Some(due)
  }

  function StopTaken(l: Life): Life {
    WithState(l, Stopping)
  }

  function StopFailed(l: Life, now: Time, idle: Time): Life {
    OnClock(WithState(l, Ready), now, idle)
  }

  function StopDone(l: Life): Life {
    WithState(OffClock(l), Stopped)
  }

  function DestroyTaken(l: Life): Life {
    WithState(OffClock(l), Destroying)
  }

  function DestroyFailed(l: Life, prior: State, now: Time, idle: Time): Life {
    var back := WithState(l, prior);
    if prior == Ready then OnClock(back, now, idle) else back
  }

  function DestroyDone(l: Life): Life {
    WithState(l, Destroyed)
  }

  function Observed(l: Life, found: State, now: Time, idle: Time): Life {
    var seen := WithState(l, found);
    if found == Ready then OnClock(seen, now, idle) else seen
  }

  // ---------------------------------------------------------------- what they keep

  predicate Resting(st: State) {
    st in {Unknown, Ready, Stopped}
  }

  /** On the idle clock exactly when st is Ready (and there is an idle policy), with a wakeup
      for the deadline on record. */
  predicate ClockFits(l: Life, st: State, idle: Time) {
    && l.timer == l.due
    && (l.due.Some? <==> st == Ready && idle > 0)
  }

  /** What an entry looks like between two requests. */
  predicate Settled(l: Life, idle: Time) {
    Resting(l.state) && l.SnapCurrent() && ClockFits(l, l.state, idle)
  }

  /** The belief st is what the backend holds under name. */
  predicate Truth(st: State, name: string, boxes: map<string, Box>) {
    && (st == Ready ==> name in boxes && boxes[name].running)
    && (st == Stopped ==> name in boxes && !boxes[name].running)
  }

  /** An observation leaves a settled entry settled exactly when it does not put a Ready entry to
      Stopped: that branch leaves the old timer running. */
  lemma ObserveSettles(l: Life, found: State, now: Time, idle: Time)
    requires Settled(l, idle) && (found == Ready || found == Stopped)
    ensures Settled(Observed(l, found, now, idle), idle) <==> found == Ready || l.state != Ready || idle <= 0
  {
  }

  // ---------------------------------------------------------------- the class

  /** A timer handed out by the clock. */
  class Timer {
    const due: Time
    var stopped: bool

    constructor (due: Time)
      ensures this.due == due && !stopped
    {
      this.due := due;
      stopped := false;
    }

    method Stop()
      modifies this
      ensures stopped
    {
      stopped := true;
    }
  }

  /** A monotone clock: time passes by some unknown amount before every reading. */
  class Clock {
    var now: Time

    method Now() returns (t: Time)
      modifies this
      ensures t == now && old(now) <= now
    {
      var passed :| 0 <= passed;
      now := now + passed;
      t := now;
    }
  }

  /** The backend contract: a map of sandboxes, and calls that fail without changing it. */
  class Backend {
    var boxes: map<string, Box>
    var ensureErr: Option<string>
    var execErr: Option<string>
    var stopErr: Option<string>
    var destroyErr: Option<string>

    method EnsureReady(spec: Spec) returns (err: Option<string>)
      modifies this`boxes
      ensures err == ensureErr
      ensures boxes == if err.Some? then old(boxes) else Readied(old(boxes), spec)
      ensures err.None? ==> && boxes.Keys == old(boxes).Keys + {spec.name} && boxes[spec.name].running
                            && boxes[spec.name].image == (if spec.name in old(boxes) then old(boxes)[spec.name].image else spec.image)
                            && forall n :: n in old(boxes) && n != spec.name ==> boxes[n] == old(boxes)[n]
    {
      if ensureErr.Some? {
        return ensureErr;
      }
      boxes := Readied(boxes, spec);
      return None;
    }

    method Exec(name: string, cmd: string) returns (out: Result<string, string>)
      ensures out.Ok? <==> execErr.None? && name in boxes && boxes[name].running
      ensures execErr.Some? ==> out == Err(execErr.value)
    {
      if execErr.Some? {
        return Err(execErr.value);
      } else if name !in boxes || !boxes[name].running {
        return Err("not running");
      }
      return Ok(cmd);
    }

    method Stop(name: string) returns (err: Option<string>)
      modifies this`boxes
      ensures err == stopErr
      ensures boxes == if err.Some? then old(boxes) else Released(old(boxes), name)
      ensures err.None? ==> && boxes.Keys == old(boxes).Keys
                            && (name in boxes ==> boxes[name] == Box(old(boxes)[name].image, false))
                            && forall n :: n in boxes && n != name ==> boxes[n] == old(boxes)[n]
    {
      if stopErr.Some? {
        return stopErr;
      }
      boxes := Released(boxes, name);
      return None;
    }

    method Destroy(name: string) returns (err: Option<string>)
      modifies this`boxes
      ensures err == destroyErr
      ensures boxes == if err.Some? then old(boxes) else old(boxes) - {name}
    {
      if destroyErr.Some? {
        return destroyErr;
      }
      boxes := boxes - {name};
      return None;
    }
  }

  function Readied(boxes: map<string, Box>, spec: Spec): map<string, Box> {
    boxes[spec.name := Box(if spec.name in boxes then boxes[spec.name].image else spec.image, true)]
  }

  function Released(boxes: map<string, Box>, name: string): map<string, Box> {
    if name in boxes then boxes[name := boxes[name].(running := false)] else boxes
  }

  /** One entry. Its methods are the ones serve calls; each leaves the fields as the transitions
      above say, whatever the backend answers, and keeps the belief true. */
  class Entry {
    const spec: Spec
    const backend: Backend
    const clock: Clock
    const idle: Time
    var state: State
    var due: Option<Time>
    var lastExec: Option<Time>
    var timer: Timer?
    var snap: Info

    constructor (spec: Spec, backend: Backend, clock: Clock, idle: Time)
      ensures this.spec == spec && this.backend == backend && this.clock == clock && this.idle == idle
      ensures Valid() && View() == NewLife(spec)
      ensures Believes()
    {
      this.spec, this.backend, this.clock, this.idle := spec, backend, clock, idle;
      state, due, lastExec, timer := Unknown, None, None, null;
      snap := Info(spec.name, Unknown, spec.image, None, None);
    }

    ghost predicate Valid()
      reads this, timer
    {
      timer != null ==> !timer.stopped
    }

    ghost function View(): Life
      reads this
    {
      Life(spec, state, due, lastExec, if timer == null then None else Some(timer.due), snap)
    }

    /** Between requests: settled, and what it believes is what the backend holds. */
    ghost predicate Believes()
      reads this, backend
    {
      Settled(View(), idle) && Truth(state, spec.name, backend.boxes)
    }

    method Publish()
      requires Valid()
      modifies this`snap
      ensures Valid() && View() == WithSnap(old(View()))
    {
      snap := Info(spec.name, state, spec.image, lastExec, due);
    }

    method Commit(st: State)
      requires Valid()
      modifies this`state, this`snap
      ensures Valid() && View() == WithState(old(View()), st)
    {
      state := st;
      Publish();
    }

    method StopTimer()
      requires Valid()
      modifies this`timer, this`due, this`snap, timer
      ensures Valid() && View() == OffClock(old(View()))
      ensures timer == null && due.None?
      ensures old(timer) != null ==> old(timer).stopped
    {
      if timer != null {
        timer.Stop();
        timer := null;
      }
      due := None;
      Publish();
    }

    method ArmIdle()
      requires Valid()
      modifies this`timer, this`due, this`snap, timer, clock
      ensures Valid() && old(clock.now) <= clock.now
      ensures View() == OnClock(old(View()), clock.now, idle)
      ensures due == if idle <= 0 then None else Some(clock.now + idle)
      ensures if idle <= 0 then timer == null else timer != null && fresh(timer) && timer.due == clock.now + idle
      ensures old(timer) != null ==> old(timer).stopped
    {
      StopTimer();
      if idle <= 0 {
        return;
      }
      var now := clock.Now();
      due := Some(now + idle);
      Publish();
      timer := new Timer(now + idle);
    }

    method DoExec(cmd: string) returns (rep: Result<string, string>)
      requires Valid() && Believes()
      modifies this, timer, backend`boxes, clock
      ensures Valid() && Believes() && old(clock.now) <= clock.now
      ensures old(state) != Ready && backend.ensureErr.Some? ==>
                && rep == Err(backend.ensureErr.value)
                && View() == PrepareFailed(ExecTaken(old(View())), old(state))
                && state == old(state) && lastExec == old(lastExec) && due.None? && timer == null
                && backend.boxes == old(backend.boxes)
      ensures old(state) == Ready || backend.ensureErr.None? ==>
                && state == Ready && lastExec.Some? && old(clock.now) <= lastExec.value <= clock.now
                && due == (if idle <= 0 then None else Some(clock.now + idle))
                && View() == ExecDone(old(if state == Ready then ExecTaken(View()) else Prepared(ExecTaken(View()))),
                                      lastExec.value, clock.now, idle)
                && backend.boxes == (if old(state) == Ready then old(backend.boxes) else Readied(old(backend.boxes), spec))
                && (rep.Ok? <==> backend.execErr.None?)
      ensures old(timer) != null ==> old(timer).stopped
      ensures timer == null || fresh(timer)
    {
      StopTimer();
      var prior := state;
      if prior != Ready {
        Commit(Preparing);
        var err := backend.EnsureReady(spec);
        if err.Some? {
          Commit(prior);
          return Err(err.value);
        }
        Commit(Executing);
      } else {
        Commit(Executing);
      }
      rep := backend.Exec(spec.name, cmd);
      var ended := clock.Now();
      lastExec := Some(ended);
      Commit(Ready);
      ArmIdle();
    }

    /** acted is whether the backend was asked to stop: exactly when the sandbox is Ready and the
        wakeup is for the deadline on record. */
    method DoIdle(forDue: Time) returns (ghost acted: bool)
      requires Valid() && Believes()
      modifies this, timer, backend`boxes, clock
      ensures Valid() && Believes() && old(clock.now) <= clock.now
      ensures acted <==> old(state) == Ready && old(due) == Some(forDue)
      ensures acted <==> IdleDue(old(View()), forDue)
      ensures !acted ==> View() == old(View()) && timer == old(timer) && backend.boxes == old(backend.boxes)
      ensures acted && backend.stopErr.Some? ==>
                && View() == StopFailed(StopTaken(old(View())), clock.now, idle)
                && state == Ready && due == Some(clock.now + idle) && lastExec == old(lastExec)
                && backend.boxes == old(backend.boxes)
      ensures acted && backend.stopErr.None? ==>
                && View() == StopDone(StopTaken(old(View())))
                && state == Stopped && due.None? && timer == null && lastExec == old(lastExec)
                && backend.boxes == Released(old(backend.boxes), spec.name)
                && spec.name in backend.boxes && !backend.boxes[spec.name].running
    {
      acted := state == Ready && due == Some(forDue);
      if state != Ready || due != Some(forDue) {
        return;
      }
      Commit(Stopping);
      var err := backend.Stop(spec.name);
      if err.Some? {
        Commit(Ready);
        ArmIdle();
        return;
      }
      StopTimer();
      Commit(Stopped);
    }

    method DoDestroy() returns (gone: bool, err: Option<string>)
      requires Valid() && Believes()
      modifies this, timer, backend`boxes, clock
      ensures Valid() && old(clock.now) <= clock.now
      ensures err == backend.destroyErr && (gone <==> err.None?)
      ensures gone ==> && View() == DestroyDone(DestroyTaken(old(View())))
                       && state == Destroyed && timer == null && due.None?
                       && backend.boxes == old(backend.boxes) - {spec.name}
      ensures !gone ==> && Believes()
                        && View() == DestroyFailed(DestroyTaken(old(View())), old(state), clock.now, idle)
                        && state == old(state) && lastExec == old(lastExec)
                        && due == (if old(state) == Ready && idle > 0 then Some(clock.now + idle) else None)
                        && backend.boxes == old(backend.boxes)
    {
      var prior := state;
      StopTimer();
      Commit(Destroying);
      err := backend.Destroy(spec.name);
      if err.Some? {
        Commit(prior);
        if prior == Ready {
          ArmIdle();
        }
        return false, err;
      }
      Commit(Destroyed);
      return true, None;
    }

    /** An observation is believed whatever the entry was: it keeps the belief exactly when it is
        still true and does not put a Ready entry to Stopped. */
    method DoObserve(found: State)
      requires Valid() && Believes() && (found == Ready || found == Stopped)
      modifies this, timer, clock
      ensures Valid() && old(clock.now) <= clock.now
      ensures View() == Observed(old(View()), found, clock.now, idle)
      ensures state == found && lastExec == old(lastExec)
      ensures found == Ready ==> due == if idle <= 0 then None else Some(clock.now + idle)
      ensures Believes() <==> && Truth(found, spec.name, backend.boxes)
                              && (found == Ready || old(state) != Ready || idle <= 0)
    {
      ObserveSettles(View(), found, clock.now, idle);
      Commit(found);
      if found == Ready {
        ArmIdle();
      }
    }
  }
}
