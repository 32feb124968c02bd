/** The callers' side of `src/engine/mod.rs`: the lifecycle is checked and the request sent under one
    lock, so whoever finds the store open is heard. */
module Engine {
  import opened Endings
  import opened Invariant
  import opened Panic
  import opened Protocol
  import opened Results
  import opened Runs

  /** `CoordinatorJoin`: the coordinator's thread is joined once, and its end remembered. */
  class CoordinatorJoin {
    const endsWell: bool          // the thread does not panic
    var handle: Option<bool>      // the thread, until it is joined
    var outcome: Option<bool>

    ghost predicate Valid()
      reads this
    {
      match outcome
      case None => handle == Some(endsWell)
      case Some(well) => well == endsWell
    }

    constructor (endsWell: bool)
      ensures Valid() && this.endsWell == endsWell && outcome.None?
    {
      this.endsWell := endsWell;
      handle := Some(endsWell);
      outcome := None;
    }

    /** `finish`: every caller learns the same end, whoever joins the thread. */
    method Finish(result: Result<()>) returns (r: Result<()>)
      requires Valid()
      modifies this`handle, this`outcome
      ensures Valid() && outcome == Some(endsWell)
      ensures r == if endsWell then result else Err(ShutdownFailure)
      ensures old(outcome).Some? ==> handle == old(handle)
    {
      var well: bool;
      if outcome.Some? {
        well := outcome.value;
      } else {
        well := handle.value;
        handle := None;
        outcome := Some(well);
      }
      return if well then result else Err(ShutdownFailure);
    }
  }

  /** What `close` leaves its caller with. */
  datatype Ticket = Resolved(result: Result<()>) | Sent(id: Id)

  /** Whoever finds the lifecycle open, under the lock, finds the coordinator listening. */
  lemma AdmittedIsHeard(setup: Setup, s: State, request: Request)
    requires Reachable(setup, s) && Admits(s.world.lifecycle, request)
    ensures !s.control.Stopped? && !s.control.Draining?
  {
    ReachableInv(setup, s);
  }

  /** The end of a close, as the coordinator wrote it. */
  lemma ClosesAgree(setup: Setup, s: State, id: Id)
    requires Reachable(setup, s) && s.control.Stopped? && id < |s.world.log| && s.world.log[id].request.Close?
    ensures s.world.log[id].status == Replied(CloseReply(s.control.ok))
  {
    CloseLosesNothing(setup, s);
  }

  lemma TerminalIsWritten(setup: Setup, s: State)
    requires Reachable(setup, s)
    ensures s.world.lifecycle.Closed? ==> Ended(s, true)
    ensures s.world.lifecycle.ShutdownFailed? ==> Ended(s, false)
  {
    ReachableInv(setup, s);
  }

  /** The final state has been written, and it is this one. */
  predicate Ended(s: State, ok: bool) {
    s.control == Draining(ok) || s.control == Stopped(ok)
  }

  lemma {:induction false} EndedStays(setup: Setup, s: State, steps: seq<Step>, ok: bool)
    requires Ended(s, ok) && IsRun(setup, s, steps)
    ensures Ended(After(setup, s, steps), ok)
    decreases |steps|
  {
    if steps == [] {
    } else {
      EndedStays(setup, Next(setup, s, steps[0]), steps[1..], ok);
    }
  }

  lemma {:induction false} RequestsStay(setup: Setup, s: State, steps: seq<Step>)
    requires 1 <= setup.maximum && Inv(setup, s) && IsRun(setup, s, steps)
    ensures |s.world.log| <= |After(setup, s, steps).world.log|
    ensures forall i | 0 <= i < |s.world.log| :: After(setup, s, steps).world.log[i].request == s.world.log[i].request
    decreases |steps|
  {
    if steps == [] {
    } else {
      StepIsForward(setup, s, steps[0]);
      StepKeepsInv(setup, s, steps[0]);
      RequestsStay(setup, Next(setup, s, steps[0]), steps[1..]);
    }
  }

  /** The ticket stands for a close that was sent, or for the final state. */
  ghost predicate TicketOk(s: State, ticket: Ticket) {
    match ticket
    case Sent(id) => id < |s.world.log| && s.world.log[id].request.Close?
    case Resolved(result) =>
      || (result == Ok(()) && Ended(s, true))
      || (result == Err(ShutdownFailure) && (Ended(s, false) || s.world.lifecycle.Failed?))
  }

  /** The coordinator has panicked in the reachable state `t`, and the store has come down as Panic.dfy has
      it. While the workers were joined the other threads went on; that, too, is before `t`. */
  ghost predicate FellFrom(setup: Setup, t: State, s: State) {
    Reachable(setup, t) && !t.control.Stopped? && s == t.(world := s.world) && FallsTo(t, s.world)
  }

  lemma Falls(setup: Setup, t: State, world: World, s: State)
    requires Reachable(setup, t) && !t.control.Stopped? && FallsTo(t, world) && s == t.(world := world)
    ensures FellFrom(setup, t, s) && s.world.handles == t.world.handles
  {
  }

  /** The other threads may lead from `s` to `t`, by steps, and at last perhaps by a panic. */
  ghost predicate Goes(setup: Setup, s: State, t: State) {
    exists steps :: IsRun(setup, s, steps) && EndsIn(setup, After(setup, s, steps), t)
  }

  ghost predicate EndsIn(setup: Setup, u: State, t: State) {
    u == t || FellFrom(setup, u, t)
  }

  lemma GoesNowhere(setup: Setup, s: State)
    ensures Goes(setup, s, s)
  {
    assert IsRun(setup, s, []) && After(setup, s, []) == s;
  }

  lemma GoesOn(setup: Setup, s: State, t: State, step: Step)
    requires Goes(setup, s, t) && !t.world.lifecycle.Failed? && CanStep(setup, t, step)
    ensures Goes(setup, s, Next(setup, t, step))
  {
    var steps :| IsRun(setup, s, steps) && EndsIn(setup, After(setup, s, steps), t);
    RunsCompose(setup, s, steps, step);
  }

  lemma GoesDown(setup: Setup, s: State, t: State, fallen: State)
    requires Goes(setup, s, t) && !t.world.lifecycle.Failed? && FellFrom(setup, t, fallen)
    ensures Goes(setup, s, fallen)
  {
    var steps :| IsRun(setup, s, steps) && EndsIn(setup, After(setup, s, steps), t);
  }

  lemma TicketOutlastsRuns(setup: Setup, s: State, steps: seq<Step>, ticket: Ticket)
    requires Reachable(setup, s) && IsRun(setup, s, steps) && TicketOk(s, ticket)
    ensures TicketOk(After(setup, s, steps), ticket)
  {
    ReachableInv(setup, s);
    RequestsStay(setup, s, steps);
    if ticket.Resolved? {
      EndedStays(setup, s, steps, ticket.result.Ok?);
    }
  }

  lemma TicketOutlastsFall(setup: Setup, s: State, fallen: State, ticket: Ticket)
    requires FellFrom(setup, s, fallen) && TicketOk(s, ticket)
    ensures TicketOk(fallen, ticket)
  {
    if ticket.Sent? {
      assert fallen.world.log[ticket.id] == Fallen(s, ticket.id);
    }
  }

  /** Whatever the threads do between the call and the wait, and even if the coordinator panics, the ticket
      stays good. */
  lemma TicketStaysGood(setup: Setup, s: State, t: State, ticket: Ticket)
    requires Reachable(setup, s) && Goes(setup, s, t) && TicketOk(s, ticket)
    ensures TicketOk(t, ticket)
  {
    var steps :| IsRun(setup, s, steps) && EndsIn(setup, After(setup, s, steps), t);
    TicketOutlastsRuns(setup, s, steps, ticket);
    if After(setup, s, steps) != t {
      TicketOutlastsFall(setup, After(setup, s, steps), t, ticket);
    }
  }

  /** What `s` looks like to callers: a reachable state, or one after a panic. */
  ghost predicate Occurs(setup: Setup, s: State) {
    Reachable(setup, s) || exists t :: FellFrom(setup, t, s)
  }

  lemma ReachableHasNotFallen(setup: Setup, s: State)
    requires Reachable(setup, s)
    ensures !s.world.lifecycle.Failed?
  {
    ReachableInv(setup, s);
  }

  /** What became of a close when the coordinator panicked in the state `t`: it had its answer, so the final
      state was written; or the coordinator held it, and dropped it; or it was in the channel. */
  lemma FallenClose(setup: Setup, t: State, s: State, id: Id)
    requires FellFrom(setup, t, s) && id < |s.world.log| && s.world.log[id].request.Close?
    ensures match s.world.log[id].status
            case Replied(Succeeded) => Ended(s, true)
            case Replied(Refused(error)) => error == ShutdownFailure
            case Replied(Dropped) => HeldByCoordinator(t, id)
            case _ => false
    ensures t.world.lifecycle.Closed? ==> Ended(s, true)
  {
    ReachableInv(setup, t);
    assert s.world.log[id] == Fallen(t, id);
    TerminalIsWritten(setup, t);
  }

  /** The close was sent, and its reply channel dropped. */
  predicate WasDropped(s: State, ticket: Ticket) {
    ticket.Sent? && ticket.id < |s.world.log| && s.world.log[ticket.id].status == Replied(Dropped)
  }

  /** What a waiter sees of the lifecycle when it notices that its reply channel is disconnected: what is
      there now; or, if it looks before `Failed` is written, what the coordinator has left there. */
  ghost predicate Sees(setup: Setup, s: State, looked: Lifecycle) {
    looked == s.world.lifecycle || exists t :: FellFrom(setup, t, s) && looked == t.world.lifecycle
  }

  lemma AnswerOfClose(setup: Setup, s: State, id: Id, looked: Lifecycle)
    requires Occurs(setup, s) && (s.control.Stopped? || s.world.lifecycle.Failed?) && Sees(setup, s, looked)
    requires id < |s.world.log| && s.world.log[id].request.Close?
    ensures !s.world.lifecycle.Failed? ==>
              s.control.Stopped? && s.world.log[id].status == Replied(CloseReply(s.control.ok))
    ensures match s.world.log[id].status
            case Replied(Succeeded) => Ended(s, true)
            case Replied(Refused(error)) => error == ShutdownFailure
            case Replied(Dropped) => s.world.lifecycle.Failed? && (looked.Closed? ==> Ended(s, true))
            case _ => false
  {
    if Reachable(setup, s) {
      ReachableHasNotFallen(setup, s);
      ClosesAgree(setup, s, id);
    } else {
      var t :| FellFrom(setup, t, s);
      FallenClose(setup, t, s, id);
      if looked != s.world.lifecycle {
        var u :| FellFrom(setup, u, s) && looked == u.world.lifecycle;
        FallenClose(setup, u, s, id);
      }
    }
  }

  /** That last answer happens: a close that the coordinator has just received when it panics is dropped, and
      its waiter may look while the lifecycle is still open. So after a panic not every close is answered
      `ShutdownFailure`. */
  lemma ADroppedCloseMayLookEarly(setup: Setup, t: State, s: State)
    requires 1 <= setup.maximum
    requires t == State(World([Entry(Close, Waiting, None)], 1, Open, [], [], setup.base),
                        map[], {}, [], false, 0, Handling(0), [])
    requires s == t.(world := t.world.(log := [Entry(Close, Replied(Dropped), None)], lifecycle := Failed))
    ensures FellFrom(setup, t, s) && WasDropped(s, Sent(0)) && TicketOk(s, Sent(0)) && Sees(setup, s, Open)
  {
    assert IsRun(setup, Initial(setup), []) && After(setup, Initial(setup), []) == Initial(setup);
    var u := t.(world := t.world.(channel := [Requested(0)]), control := Receiving);
    StepStaysReachable(setup, Initial(setup), ByOthers(Send(Close)));
    assert Next(setup, Initial(setup), ByOthers(Send(Close))) == u;
    StepStaysReachable(setup, u, ByCoordinator(Receive));
    assert Next(setup, u, ByCoordinator(Receive)) == t;
    assert HeldByCoordinator(t, 0);
    assert s.world.log[0] == Fallen(t, 0);
  }

  /** A store as its callers share it. `now` is the state of all threads. */
  class EngineHandle {
    const setup: Setup
    const coordinator: CoordinatorJoin
    var now: State

    ghost predicate Valid()
      reads this, coordinator
    {
      Occurs(setup, now) && coordinator.Valid()
    }

    constructor (setup: Setup, endsWell: bool)
      requires 1 <= setup.maximum
      ensures Valid() && this.setup == setup && now == Initial(setup) && fresh(coordinator)
    {
      this.setup := setup;
      coordinator := new CoordinatorJoin(endsWell);
      now := Initial(setup);
      new;
      assert IsRun(setup, Initial(setup), []) && After(setup, Initial(setup), []) == now;
    }

    /** The coordinator panics. */
    method Fall()
      requires Valid() && Reachable(setup, now) && !now.control.Stopped? && now.world.jobs == []
      modifies this`now
      ensures Valid() && FellFrom(setup, old(now), now) && now.world.handles == old(now).world.handles
    {
      ghost var before := now;
      var world := FailAll(setup, before, Unwound(now, now.world));
      now := now.(world := world);
      Falls(setup, before, world, now);
    }

    /** Other threads go on. The caller keeps its handle, and the coordinator may panic. */
    method Elsewhere()
      requires Valid() && now.world.handles > 0
      modifies this`now
      ensures Valid() && now.world.handles > 0 && Goes(setup, old(now), now)
    {
      GoesNowhere(setup, now);
      var rounds: nat := *;
      while rounds > 0
        invariant Valid() && now.world.handles > 0 && Goes(setup, old(now), now)
      {
        rounds := rounds - 1;
        var panics: bool := *;
        var step: Step := *;
        if now.world.lifecycle.Failed? {
        } else if panics && !now.control.Stopped? && now.world.jobs == [] {
          ghost var before := now;
          Fall();
          GoesDown(setup, old(now), before, now);
        } else if CanStep(setup, now, step) {
          if Next(setup, now, step).world.handles > 0 {
            GoesOn(setup, old(now), now, step);
            StepStaysReachable(setup, now, step);
            now := Next(setup, now, step);
          }
        }
      }
    }

    /** `ensure_open`. */
    method EnsureOpen() returns (r: Result<()>)
      ensures r == match now.world.lifecycle
                   case Open => Ok(())
                   case Failed => Err(EngineFailed)
                   case _ => Err(StoreClosed)
    {
      match now.world.lifecycle {
        case Open => return Ok(());
        case Closing => return Err(StoreClosed);
        case Closed => return Err(StoreClosed);
        case ShutdownFailed => return Err(StoreClosed);
        case Failed => return Err(EngineFailed);
      }
    }

    /** The lock is held from the check to the send. */
    method SendLocked(request: Request) returns (id: Id)
      requires Valid() && now.world.handles > 0 && Admits(now.world.lifecycle, request)
      modifies this`now
      ensures Valid() && Stepped(setup, old(now), ByOthers(Send(request))) == Some(now)
      ensures id == |old(now).world.log| && now.world.log == old(now).world.log + [Entry(request, Waiting, None)]
      ensures now.world.channel == old(now).world.channel + [Requested(id)]
      ensures !now.control.Stopped? && !now.control.Draining?
    {
      AdmittedIsHeard(setup, now, request);
      id := |now.world.log|;
      StepStaysReachable(setup, now, ByOthers(Send(request)));
      now := now.(world := now.world.(
                    log := now.world.log + [Entry(request, Waiting, None)],
                    channel := now.world.channel + [Requested(id)]));
    }

    /** `submit` and `submit_operation`, and `flush` and the clean-up, with the look at the lifecycle that
        comes first. `checked` is the state at the last look, which for a store found open is under the
        lock: the request is sent exactly if the store is open then, and the coordinator is there to
        receive it, so sending does not fail. */
    method Submit(request: Request) returns (r: Result<Id>, ghost checked: State)
      requires Valid() && now.world.handles > 0 && !request.Close?
      modifies this`now
      ensures Valid() && Goes(setup, old(now), checked)
      ensures r.Ok? <==> checked.world.lifecycle.Open?
      ensures r.Ok? ==> Stepped(setup, checked, ByOthers(Send(request))) == Some(now) && r.value == |checked.world.log|
      ensures r.Ok? ==> !now.control.Stopped? && !now.control.Draining?
      ensures r.Err? ==> now == checked
      ensures r.Err? ==> r.error == if checked.world.lifecycle.Failed? then EngineFailed else StoreClosed
    {
      GoesNowhere(setup, now);
      checked := now;
      var first := EnsureOpen();
      if first.Err? {
        return Err(first.error), checked;
      }
      Elsewhere();
      checked := now;
      var second := EnsureOpen();
      if second.Err? {
        return Err(second.error), checked;
      }
      var id := SendLocked(request);
      return Ok(id), checked;
    }

    /** A look at the lifecycle for a close: the answer of a store that is already down. */
    method LookDown() returns (down: Option<Result<()>>)
      requires Valid()
      ensures down.None? <==> now.world.lifecycle.Open? || now.world.lifecycle.Closing?
      ensures down.Some? ==> TicketOk(now, Resolved(down.value))
    {
      if !now.world.lifecycle.Failed? {
        assert Reachable(setup, now);
        TerminalIsWritten(setup, now);
      }
      match now.world.lifecycle {
        case Open => return None;
        case Closing => return None;
        case Closed => return Some(Ok(()));
        case ShutdownFailed => return Some(Err(ShutdownFailure));
        case Failed => return Some(Err(ShutdownFailure));
      }
    }

    /** `close`, which looks twice: a store that is already down answers at once; otherwise the close is
        sent, to a coordinator that is there. */
    method Close() returns (ticket: Ticket, ghost checked: State)
      requires Valid() && now.world.handles > 0
      modifies this`now
      ensures Valid() && TicketOk(now, ticket) && Goes(setup, old(now), checked)
      ensures ticket.Sent? <==> checked.world.lifecycle.Open? || checked.world.lifecycle.Closing?
      ensures match ticket
              case Sent(id) =>
                && Stepped(setup, checked, ByOthers(Send(Request.Close))) == Some(now) && id == |checked.world.log|
                && !now.control.Stopped? && !now.control.Draining?
              case Resolved(_) => now == checked
    {
      GoesNowhere(setup, now);
      checked := now;
      var down := LookDown();
      if down.Some? {
        return Resolved(down.value), checked;
      }
      Elsewhere();
      checked := now;
      down := LookDown();
      if down.Some? {
        return Resolved(down.value), checked;
      }
      var id := SendLocked(Request.Close);
      return Sent(id), checked;
    }

    /** What waiting for a close gives once the coordinator has come down: its reply; or, if the channel is
        disconnected, what the lifecycle says at that moment; and then the end of the coordinator's thread.
        A panic of `run_scheduler` is caught, and does not end the thread by a panic. */
    method FinishClose(ticket: Ticket, looked: Lifecycle) returns (r: Result<()>)
      requires Valid() && (now.control.Stopped? || now.world.lifecycle.Failed?)
      requires TicketOk(now, ticket) && Sees(setup, now, looked)
      modifies coordinator
      ensures coordinator.Valid()
      ensures !now.world.lifecycle.Failed? ==>
                r == if now.control.ok && coordinator.endsWell then Ok(()) else Err(ShutdownFailure)
      ensures !coordinator.endsWell ==> r == Err(ShutdownFailure)
      ensures r.Ok? ==> Ended(now, true)
      ensures r.Err? ==> r.error == ShutdownFailure || r.error == EngineFailed
      ensures r == Err(EngineFailed) <==>
                && coordinator.endsWell && WasDropped(now, ticket)
                && (looked.Open? || looked.Closing?)
    {
      var result := WaitForClose(ticket, looked);
      r := coordinator.Finish(result);
    }

    /** The wait itself, before the thread is joined. */
    method WaitForClose(ticket: Ticket, looked: Lifecycle) returns (r: Result<()>)
      requires Valid() && (now.control.Stopped? || now.world.lifecycle.Failed?)
      requires TicketOk(now, ticket) && Sees(setup, now, looked)
      ensures !now.world.lifecycle.Failed? ==> r == if now.control.ok then Ok(()) else Err(ShutdownFailure)
      ensures r.Ok? ==> Ended(now, true)
      ensures r.Err? ==> r.error == ShutdownFailure || r.error == EngineFailed
      ensures r == Err(EngineFailed) <==> WasDropped(now, ticket) && (looked.Open? || looked.Closing?)
    {
      match ticket {
        case Resolved(early) => return early;
        case Sent(id) =>
          AnswerOfClose(setup, now, id, looked);
          match now.world.log[id].status {
            case Replied(Succeeded) => return Ok(());
            case Replied(Refused(error)) => return Err(error);
            case _ =>
              return match looked
                     case Closed => Ok(())
                     case ShutdownFailed => Err(ShutdownFailure)
                     case Failed => Err(ShutdownFailure)
                     case _ => Err(EngineFailed);
          }
      }
    }
  }
}
