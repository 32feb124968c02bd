/** The lifecycle lock. A submitter holds it from the check of the lifecycle to the send
    (`submit`, `flush` and `close` in `src/engine/mod.rs`); the coordinator takes it wherever it reads or
    writes the lifecycle. Here lock, check and send are separate steps, between which all other threads go
    on; and they are proved to amount to the one step that Protocol.dfy makes of them. */
module Locking {
  import opened Protocol
  import opened Results
  import opened Runs

  /** The state of all threads, and the request of the submitter that holds the lock, past its check. */
  datatype Guarded = Guarded(inner: State, holder: Option<Request>)

  datatype GuardedStep =
    | LockAndCheck(request: Request)
    | SendAndUnlock
    | Meanwhile(step: Step)

  /** The coordinator's steps that need the lock. */
  predicate NeedsLock(step: Step) {
    step.ByCoordinator? && (step.action.Handle? || step.action.WriteTerminal? || step.action.Disconnect?)
  }

  /** A submitter that is in a call has not dropped its handle. */
  predicate DropsTheHolder(g: Guarded, step: Step) {
    g.holder.Some? && step == ByOthers(DropHandle) && g.inner.world.handles <= 1
  }

  predicate GuardedCan(setup: Setup, g: Guarded, step: GuardedStep) {
    match step
    case LockAndCheck(request) =>
      g.holder.None? && g.inner.world.handles > 0 && Admits(g.inner.world.lifecycle, request)
    case SendAndUnlock => g.holder.Some?
    case Meanwhile(inner) =>
      && CanStep(setup, g.inner, inner)
      && !(inner.ByOthers? && inner.move.Send?)
      && (NeedsLock(inner) ==> g.holder.None?)
      && !DropsTheHolder(g, inner)
  }

  /** The send itself: it does not look at the lifecycle again. */
  function Sent(s: State, request: Request): State {
    s.(world := s.world.(log := s.world.log + [Entry(request, Waiting, None)],
                         channel := s.world.channel + [Requested(|s.world.log|)]))
  }

  function GuardedNext(setup: Setup, g: Guarded, step: GuardedStep): Guarded
    requires GuardedCan(setup, g, step)
  {
    match step
    case LockAndCheck(request) => g.(holder := Some(request))
    case SendAndUnlock => Guarded(Sent(g.inner, g.holder.value), None)
    case Meanwhile(inner) => g.(inner := Next(setup, g.inner, inner))
  }

  /** What the check has found still holds, as long as the lock is held. */
  ghost predicate CheckHolds(g: Guarded) {
    g.holder.Some? ==> g.inner.world.handles > 0 && Admits(g.inner.world.lifecycle, g.holder.value)
  }

  lemma StepKeepsCheck(setup: Setup, g: Guarded, step: GuardedStep)
    requires CheckHolds(g) && GuardedCan(setup, g, step)
    ensures CheckHolds(GuardedNext(setup, g, step))
  {
  }

  ghost predicate IsGuardedRun(setup: Setup, g: Guarded, steps: seq<GuardedStep>)
    decreases |steps|
  {
    steps == [] || (GuardedCan(setup, g, steps[0]) && IsGuardedRun(setup, GuardedNext(setup, g, steps[0]), steps[1..]))
  }

  ghost function GuardedAfter(setup: Setup, g: Guarded, steps: seq<GuardedStep>): Guarded
    requires IsGuardedRun(setup, g, steps)
    decreases |steps|
  {
    if steps == [] then g else GuardedAfter(setup, GuardedNext(setup, g, steps[0]), steps[1..])
  }

  /** With the lock held from check to send, lock, check and send are one atomic step: whatever happens in
      between, every state that is reached is reached by the machine as well. */
  lemma {:induction false} GuardedRunsStayReachable(setup: Setup, g: Guarded, steps: seq<GuardedStep>)
    requires CheckHolds(g) && Reachable(setup, g.inner) && IsGuardedRun(setup, g, steps)
    ensures CheckHolds(GuardedAfter(setup, g, steps)) && Reachable(setup, GuardedAfter(setup, g, steps).inner)
    decreases |steps|
  {
    if steps == [] {
    } else {
      StepKeepsCheck(setup, g, steps[0]);
      match steps[0] {
        case LockAndCheck(_) =>
        case SendAndUnlock => StepStaysReachable(setup, g.inner, ByOthers(Send(g.holder.value)));
        case Meanwhile(step) => StepStaysReachable(setup, g.inner, step);
      }
      GuardedRunsStayReachable(setup, GuardedNext(setup, g, steps[0]), steps[1..]);
    }
  }

  /** A submitter past its check is heard, however long it takes to send. */
  lemma HolderIsHeard(setup: Setup, g: Guarded, steps: seq<GuardedStep>)
    requires CheckHolds(g) && Reachable(setup, g.inner) && IsGuardedRun(setup, g, steps)
    ensures var h := GuardedAfter(setup, g, steps);
            h.holder.Some? ==> !h.inner.control.Stopped? && !h.inner.control.Draining?
  {
    GuardedRunsStayReachable(setup, g, steps);
    ReachableInv(setup, GuardedAfter(setup, g, steps).inner);
  }

  // ---------------------------------------------------------------- without the lock

  /** An empty store in which one close was sent. */
  function Shutting(
      setup: Setup, status: Status, lifecycle: Lifecycle, channel: seq<Event>, pending: seq<Id>, control: Control):
    State
  {
    State(World([Entry(Close, status, None)], 1, lifecycle, channel, [], setup.base),
          map[], {}, pending, false, 0, control, [])
  }

  /** The store after that: the coordinator has returned. */
  function ClosedDown(setup: Setup): State {
    Shutting(setup, Replied(Succeeded), Closed, [], [], Stopped(true))
  }

  lemma ClosesDown(setup: Setup)
    requires 1 <= setup.maximum
    ensures Reachable(setup, ClosedDown(setup))
  {
    assert IsRun(setup, Initial(setup), []) && After(setup, Initial(setup), []) == Initial(setup);
    var s1 := Shutting(setup, Waiting, Open, [Requested(0)], [], Receiving);
    StepStaysReachable(setup, Initial(setup), ByOthers(Send(Close)));
    assert Next(setup, Initial(setup), ByOthers(Send(Close))) == s1;
    var s2 := Shutting(setup, Waiting, Open, [], [], Handling(0));
    StepStaysReachable(setup, s1, ByCoordinator(Receive));
    assert Next(setup, s1, ByCoordinator(Receive)) == s2;
    var s3 := Shutting(setup, Deferred, Closing, [], [0], Advancing);
    StepStaysReachable(setup, s2, ByCoordinator(Handle));
    assert Next(setup, s2, ByCoordinator(Handle)) == s3;
    ClosesDownFrom(setup, s3);
  }

  lemma ClosesDownFrom(setup: Setup, s3: State)
    requires Reachable(setup, s3) && s3 == Shutting(setup, Deferred, Closing, [], [0], Advancing)
    ensures Reachable(setup, ClosedDown(setup))
  {
    var s4 := s3.(control := Checking);
    StepStaysReachable(setup, s3, ByCoordinator(Advance(0, Unavailable)));
    assert Next(setup, s3, ByCoordinator(Advance(0, Unavailable))) == s4;
    var s5 := s4.(control := PoolDown(true));
    StepStaysReachable(setup, s4, ByCoordinator(Check(true)));
    assert Next(setup, s4, ByCoordinator(Check(true))) == s5;
    var s6 := Shutting(setup, Deferred, Closed, [], [0], Draining(true));
    StepStaysReachable(setup, s5, ByCoordinator(WriteTerminal));
    assert Next(setup, s5, ByCoordinator(WriteTerminal)) == s6;
    var s7 := Shutting(setup, Replied(Succeeded), Closed, [], [], Draining(true));
    StepStaysReachable(setup, s6, ByCoordinator(Drain));
    assert Next(setup, s6, ByCoordinator(Drain)) == s7;
    StepStaysReachable(setup, s7, ByCoordinator(Drain));
    assert Next(setup, s7, ByCoordinator(Drain)) == ClosedDown(setup);
  }

  /** The coordinator has returned, no job is out, and the lifecycle says so. */
  predicate AllGone(s: State) {
    s.control.Stopped? && s.world.jobs == [] && s.world.lifecycle.Closed?
  }

  lemma GoneStaysGone(setup: Setup, s: State, step: Step)
    requires AllGone(s) && CanStep(setup, s, step)
    ensures AllGone(Next(setup, s, step)) && Next(setup, s, step).world.log == s.world.log
  {
  }

  lemma {:induction false} NobodyAnswers(setup: Setup, s: State, steps: seq<Step>)
    requires AllGone(s) && IsRun(setup, s, steps)
    ensures After(setup, s, steps).world.log == s.world.log
    decreases |steps|
  {
    if steps == [] {
    } else {
      GoneStaysGone(setup, s, steps[0]);
      NobodyAnswers(setup, Next(setup, s, steps[0]), steps[1..]);
    }
  }

  /** The lock is needed: a submitter that finds the store open, but no longer holds the lock when it sends,
      may send to a coordinator that has done with its channel. Then its request waits for ever, whatever
      the threads do. In the source the window for this ends with the coordinator's thread, which drops the
      receiver after its last `try_recv`: a later send reports an error to its caller. */
  lemma WithoutTheLockRequestsAreLost(setup: Setup, request: Request, steps: seq<Step>)
    requires 1 <= setup.maximum && IsRun(setup, Sent(ClosedDown(setup), request), steps)
    ensures Admits(Initial(setup).world.lifecycle, request) && Reachable(setup, ClosedDown(setup))
    ensures var log := After(setup, Sent(ClosedDown(setup), request), steps).world.log;
            |log| == 2 && log[1].request == request && log[1].status.Waiting?
  {
    ClosesDown(setup);
    NobodyAnswers(setup, Sent(ClosedDown(setup), request), steps);
  }
}
