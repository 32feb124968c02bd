/** Every step keeps what the coordinator knows at each point of its loop: nothing is stranded,
    nothing waits without a reason, results are delivered, closing is final. */
module StepsControl {
  import opened Invariant
  import opened Operations
  import opened Protocol
  import opened Results
  import opened StepsForward
  import opened StepsPlaces
  import opened StepsTokens

  // ---------------------------------------------------------------- delivery

  lemma MoveKeepsDelivering(setup: Setup, s: State, move: Move)
    requires DeliveringInv(s) && RunningInv(s) && MoveEnabled(setup, s.world, move)
    ensures DeliveringInv(Next(setup, s, ByOthers(move)))
  {
    if move.Conclude? || move.ConcludeMaintenance? {
      assert JobOk(s.world, s.world.jobs[move.job]);
    }
  }

  lemma ReceiveKeepsDelivering(setup: Setup, s: State)
    requires DeliveringInv(s) && RunningInv(s) && Enabled(setup, s, Receive)
    ensures DeliveringInv(Received(setup, s))
  {
    assert EventOk(s.world, s.world.channel[0]);
  }

  lemma HandleKeepsDelivering(setup: Setup, s: State)
    requires InboxInv(s) && DeliveringInv(s) && Enabled(setup, s, Handle)
    ensures DeliveringInv(Handled(setup, s))
  {
    HandleKeepsInbox(setup, s);
  }

  lemma DispatchKeepsDelivering(setup: Setup, s: State, key: KeyHash, grown: nat, fate: Fate)
    requires QueueInv(s) && DeliveringInv(s) && Enabled(setup, s, Dispatch(key, grown, fate))
    ensures DeliveringInv(Dispatched(setup, s, key, grown, fate))
  {
    assert QueueOk(s.world.log, key, s.queues[key]);
    assert s.queues[key][0] in s.queues[key];
    assert OutcomeInHand(AfterDispatch(s.control)) == OutcomeInHand(s.control);
  }

  lemma AdvanceKeepsDelivering(setup: Setup, s: State, grown: nat, fate: Fate)
    requires PendingInv(s) && DeliveringInv(s) && Enabled(setup, s, Advance(grown, fate))
    ensures DeliveringInv(Advanced(setup, s, grown, fate))
  {
    assert s.pending != [] ==> s.pending[0] in s.pending;
  }

  lemma DrainKeepsDelivering(setup: Setup, s: State)
    requires PendingInv(s) && DeliveringInv(s) && Enabled(setup, s, Drain)
    ensures DeliveringInv(Drained(setup, s))
  {
    assert FrontIsClose(s) ==> s.pending[0] in s.pending;
  }

  lemma ActionKeepsDelivering(setup: Setup, s: State, action: Action)
    requires Placed(setup, s) && Enabled(setup, s, action)
    ensures DeliveringInv(Next(setup, s, ByCoordinator(action)))
  {
    match action {
      case Receive => ReceiveKeepsDelivering(setup, s);
      case Handle => HandleKeepsDelivering(setup, s);
      case Dispatch(key, grown, fate) => DispatchKeepsDelivering(setup, s, key, grown, fate);
      case Skip =>
      case EndFilling =>
      case Advance(grown, fate) => AdvanceKeepsDelivering(setup, s, grown, fate);
      case Check(_) =>
      case WriteTerminal =>
      case Drain => DrainKeepsDelivering(setup, s);
      case Disconnect =>
    }
  }

  // ---------------------------------------------------------------- workers

  lemma MoveKeepsPool(setup: Setup, s: State, move: Move)
    requires PoolInv(setup, s) && MoveEnabled(setup, s.world, move)
    ensures PoolInv(setup, Next(setup, s, ByOthers(move)))
  {
    match move {
      case Observe(at) => JobsRestaged(s.world.jobs, at, Moved(setup, s.world, move).jobs[at].stage, KeyHash([]));
      case Conclude(at, _, _) => JobsWithout(s.world.jobs, at, KeyHash([]));
      case ConcludeMaintenance(at, _) => JobsWithout(s.world.jobs, at, KeyHash([]));
      case _ =>
    }
  }

  lemma DispatchKeepsPool(setup: Setup, s: State, key: KeyHash, grown: nat, fate: Fate)
    requires PoolInv(setup, s) && Enabled(setup, s, Dispatch(key, grown, fate))
    ensures PoolInv(setup, Dispatched(setup, s, key, grown, fate))
  {
    JobsAppend(s.world.jobs, OperationJob(key, s.queues[key][0], Ready), key);
  }

  lemma AdvanceKeepsPool(setup: Setup, s: State, grown: nat, fate: Fate)
    requires 1 <= setup.maximum && PoolInv(setup, s) && Enabled(setup, s, Advance(grown, fate))
    ensures PoolInv(setup, Advanced(setup, s, grown, fate))
  {
    if s.pending != [] {
      JobsAppend(s.world.jobs, MaintenanceJob(s.pending[0]), KeyHash([]));
    }
  }

  /** At rest, the workers have nothing to do, and the pool may be taken down. */
  lemma PoolMayGoDown(s: State)
    requires TokenInv(s) && s.active == {} && !s.maintenanceActive
    ensures s.world.jobs == [] && MaintenanceJobs(s.world.jobs) == 0
    ensures forall e | 0 <= e < |s.world.channel| :: s.world.channel[e].Requested?
  {
    if s.world.jobs != [] {
      JobIsCounted(s.world.jobs, 0);
      if s.world.jobs[0].OperationJob? {
        TokenMeansActive(s, s.world.jobs[0].key);
      }
    }
    forall e | 0 <= e < |s.world.channel| ensures s.world.channel[e].Requested? {
      CompletionIsCounted(s.world.channel, e);
      if s.world.channel[e].Completed? {
        TokenMeansActive(s, s.world.channel[e].key);
      }
    }
  }

  lemma ActionKeepsPool(setup: Setup, s: State, action: Action)
    requires 1 <= setup.maximum
    requires PoolInv(setup, s) && TokenInv(s) && ControlInv(setup, s) && Enabled(setup, s, action)
    ensures PoolInv(setup, Next(setup, s, ByCoordinator(action)))
  {
    match action {
      case Receive =>
      case Handle =>
      case Dispatch(key, grown, fate) => DispatchKeepsPool(setup, s, key, grown, fate);
      case Skip =>
      case EndFilling =>
      case Advance(grown, fate) => AdvanceKeepsPool(setup, s, grown, fate);
      case Check(_) =>
        if CloseIsDue(s) {
          PoolMayGoDown(s);
        }
      case WriteTerminal =>
      case Drain =>
      case Disconnect => NobodyLeft(setup, s);
    }
  }

  /** When every sender is gone, everything is at rest. */
  lemma NobodyLeft(setup: Setup, s: State)
    requires 1 <= setup.maximum && TokenInv(s) && ControlInv(setup, s) && Enabled(setup, s, Disconnect)
    ensures s.active == {} && !s.maintenanceActive && s.pending == [] && s.queues == map[]
    ensures s.world.jobs == [] && s.world.channel == []
  {
    forall key ensures key !in s.active {
      TokenMeansActive(s, key);
    }
  }

  // ---------------------------------------------------------------- maintenance and lifecycle

  lemma ActionKeepsMaintenance(setup: Setup, s: State, action: Action)
    requires MaintenanceInv(s) && ControlInv(setup, s) && Enabled(setup, s, action)
    ensures MaintenanceInv(Next(setup, s, ByCoordinator(action)))
  {
  }

  lemma MoveKeepsMaintenance(setup: Setup, s: State, move: Move)
    requires MaintenanceInv(s) && LifecycleInv(s) && MoveEnabled(setup, s.world, move)
    ensures MaintenanceInv(Next(setup, s, ByOthers(move))) && LifecycleInv(Next(setup, s, ByOthers(move)))
  {
  }

  lemma ActionKeepsLifecycle(setup: Setup, s: State, action: Action)
    requires LifecycleInv(s) && ControlInv(setup, s) && CloseInv(s) && PendingInv(s) && Enabled(setup, s, action)
    ensures LifecycleInv(Next(setup, s, ByCoordinator(action)))
  {
    if action.Check? && CloseIsDue(s) {
      assert s.pending[0] in s.pending;
      assert ClosedBy(s.world.log[s.pending[0]]);
      assert CloseReceived(s.world.log, |s.world.log|);
    }
  }

  // ---------------------------------------------------------------- where the coordinator is

  lemma MoveKeepsControl(setup: Setup, s: State, move: Move)
    requires PendingInv(s) && RunningInv(s) && ControlInv(setup, s) && TokenInv(s) && LifecycleInv(s)
    requires MoveEnabled(setup, s.world, move)
    ensures ControlInv(setup, Next(setup, s, ByOthers(move)))
  {
    MoveIsForward(setup, s, move);
    assert s.pending != [] ==> s.pending[0] in s.pending;
    assert forall i | 0 <= i < |s.world.log| :: Forward(s.world.log[i], Moved(setup, s.world, move).log[i], false);
  }

  lemma ReceiveKeepsControl(setup: Setup, s: State)
    requires TokenInv(s) && MaintenanceInv(s) && ControlInv(setup, s) && Enabled(setup, s, Receive)
    ensures ControlInv(setup, Received(setup, s))
  {
    if s.world.channel[0].Completed? {
      TokenMeansActive(s, s.world.channel[0].key);
    }
  }

  lemma HandleKeepsControl(setup: Setup, s: State)
    requires ControlInv(setup, s) && LifecycleInv(s) && Enabled(setup, s, Handle)
    ensures ControlInv(setup, Handled(setup, s))
  {
  }

  lemma DispatchKeepsControl(setup: Setup, s: State, key: KeyHash, grown: nat, fate: Fate)
    requires ControlInv(setup, s) && Enabled(setup, s, Dispatch(key, grown, fate))
    ensures ControlInv(setup, Dispatched(setup, s, key, grown, fate))
  {
  }

  lemma EndFillingKeepsControl(setup: Setup, s: State)
    requires ControlInv(setup, s) && Enabled(setup, s, EndFilling)
    ensures ControlInv(setup, EndedFilling(setup, s))
  {
  }

  lemma AdvanceKeepsControl(setup: Setup, s: State, grown: nat, fate: Fate)
    requires ControlInv(setup, s) && Enabled(setup, s, Advance(grown, fate))
    ensures ControlInv(setup, Advanced(setup, s, grown, fate))
  {
  }

  lemma CheckKeepsControl(setup: Setup, s: State, ok: bool)
    requires 1 <= setup.maximum && ControlInv(setup, s) && Enabled(setup, s, Check(ok))
    ensures ControlInv(setup, Acted(setup, s, Check(ok)))
  {
  }

  lemma DrainKeepsControl(setup: Setup, s: State)
    requires PendingInv(s) && CloseInv(s) && ControlInv(setup, s) && TokenInv(s) && Enabled(setup, s, Drain)
    ensures ControlInv(setup, Drained(setup, s))
  {
    PoolMayGoDown(s);
    if |s.pending| > 1 && FrontIsClose(s) {
      assert s.pending[0] in s.pending && s.pending[1] in s.pending;
      assert ClosedBy(s.world.log[s.pending[0]]);
    }
  }

  lemma ActionKeepsControl(setup: Setup, s: State, action: Action)
    requires 1 <= setup.maximum && PendingInv(s) && TokenInv(s) && CloseInv(s)
    requires ControlInv(setup, s) && MaintenanceInv(s) && LifecycleInv(s) && Enabled(setup, s, action)
    ensures ControlInv(setup, Next(setup, s, ByCoordinator(action)))
  {
    match action {
      case Receive => ReceiveKeepsControl(setup, s);
      case Handle => HandleKeepsControl(setup, s);
      case Dispatch(key, grown, fate) => DispatchKeepsControl(setup, s, key, grown, fate);
      case Skip =>
      case EndFilling => EndFillingKeepsControl(setup, s);
      case Advance(grown, fate) => AdvanceKeepsControl(setup, s, grown, fate);
      case Check(ok) => CheckKeepsControl(setup, s, ok);
      case WriteTerminal =>
      case Drain => DrainKeepsControl(setup, s);
      case Disconnect => NobodyLeft(setup, s);
    }
  }

  // ---------------------------------------------------------------- closing

  lemma MoveKeepsClosed(setup: Setup, s: State, move: Move)
    requires RunningInv(s) && MoveEnabled(setup, s.world, move)
    ensures var log, later := s.world.log, Moved(setup, s.world, move).log;
            && |log| <= |later|
            && (forall i | 0 <= i < |log| ::
                  && ClosedBy(later[i]) == ClosedBy(log[i]) && later[i].request == log[i].request
                  && Late(later[i]) == Late(log[i]) && later[i].status.Waiting? == log[i].status.Waiting?
                  && (log[i].request.Close? ==> later[i] == log[i]))
            && (forall i | |log| <= i < |later| :: later[i].status.Waiting?)
  {
    if move.Conclude? || move.ConcludeMaintenance? {
      assert JobOk(s.world, s.world.jobs[move.job]);
    }
  }

  lemma MoveKeepsClose(setup: Setup, s: State, move: Move)
    requires RunningInv(s) && CloseInv(s) && MoveEnabled(setup, s.world, move)
    ensures CloseInv(Next(setup, s, ByOthers(move)))
  {
    MoveKeepsClosed(setup, s, move);
    ClosesFramed(s.world.log, Moved(setup, s.world, move).log);
  }

  /** Closes that were turned to before are exactly those turned to after. */
  lemma ClosesFramed(log: seq<Entry>, later: seq<Entry>)
    requires |log| <= |later|
    requires forall i | 0 <= i < |log| :: ClosedBy(later[i]) == ClosedBy(log[i])
    requires forall i | |log| <= i < |later| :: !ClosedBy(later[i])
    ensures forall before: nat | before <= |log| :: CloseReceived(later, before) == CloseReceived(log, before)
    ensures CloseReceived(later, |later|) == CloseReceived(log, |log|)
  {
    forall before: nat | CloseReceived(log, before) ensures CloseReceived(later, before) {
      var c :| 0 <= c < before && c < |log| && ClosedBy(log[c]);
      assert ClosedBy(later[c]);
    }
    forall before: nat | CloseReceived(later, before) ensures CloseReceived(log, before) {
      var c :| 0 <= c < before && c < |later| && ClosedBy(later[c]);
      assert ClosedBy(log[c]);
    }
    if CloseReceived(log, |log|) {
      var c :| 0 <= c < |log| && c < |log| && ClosedBy(log[c]);
      assert ClosedBy(later[c]);
    }
    if CloseReceived(later, |later|) {
      var c :| 0 <= c < |later| && c < |later| && ClosedBy(later[c]);
      assert ClosedBy(log[c]);
    }
  }

  /** Progress of a request that was let in, or held back, before any close. */
  lemma CloseFramed(s: State, t: State, id: Id, status: Status)
    requires CloseInv(s) && id < |s.world.log| && !s.world.log[id].request.Close?
    requires !s.world.log[id].status.Waiting? && !Late(s.world.log[id])
    requires !status.Waiting? && !Late(s.world.log[id].(status := status))
    requires t.world.log == Marked(s.world.log, Mark(id, status)) && t.world.lifecycle == s.world.lifecycle
    requires !Terminal(s.control) && !Terminal(t.control)
    ensures CloseInv(t)
  {
    ClosesFramed(s.world.log, t.world.log);
  }

  predicate Terminal(control: Control) {
    control.Draining? || control.Stopped?
  }

  lemma ReceiveKeepsClose(setup: Setup, s: State)
    requires RunningInv(s) && CloseInv(s) && Enabled(setup, s, Receive)
    ensures CloseInv(Received(setup, s))
  {
    var mark := ReceiveMark(s.world.channel[0]);
    assert EventOk(s.world, s.world.channel[0]);
    if mark.Mark? {
      CloseFramed(s, Received(setup, s), mark.id, mark.status);
    }
  }

  lemma DispatchKeepsClose(setup: Setup, s: State, key: KeyHash, grown: nat, fate: Fate)
    requires QueueInv(s) && CloseInv(s) && Enabled(setup, s, Dispatch(key, grown, fate))
    ensures CloseInv(Dispatched(setup, s, key, grown, fate))
  {
    assert QueueOk(s.world.log, key, s.queues[key]);
    assert s.queues[key][0] in s.queues[key];
    CloseFramed(s, Dispatched(setup, s, key, grown, fate), s.queues[key][0], FateStatus(fate));
  }

  lemma EndFillingKeepsClose(setup: Setup, s: State)
    requires DeliveringInv(s) && CloseInv(s) && Enabled(setup, s, EndFilling)
    ensures CloseInv(EndedFilling(setup, s))
  {
    var mark := EndFillingMark(s.control.next);
    if mark.Mark? {
      CloseFramed(s, EndedFilling(setup, s), mark.id, mark.status);
    }
  }

  lemma AdvanceKeepsClose(setup: Setup, s: State, grown: nat, fate: Fate)
    requires PendingInv(s) && CloseInv(s) && Enabled(setup, s, Advance(grown, fate))
    ensures CloseInv(Advanced(setup, s, grown, fate))
  {
    var round := RoundOf(s);
    if !round.Stay? {
      assert s.pending[0] in s.pending;
      CloseFramed(s, Advanced(setup, s, grown, fate), s.pending[0], RoundStatus(round, fate));
    }
  }

  lemma HandleKeepsClose(setup: Setup, s: State)
    requires InboxInv(s) && CloseInv(s) && LifecycleInv(s) && Enabled(setup, s, Handle)
    ensures CloseInv(Handled(setup, s))
  {
    HandleKeepsInbox(setup, s);
    var log, later, id := s.world.log, Handled(setup, s).world.log, s.control.id;
    if log[id].request.Close? {
      assert ClosedBy(later[id]);
      CloseTurnedTo(log, later, id);
    } else {
      ClosesFramed(log, later);
      if !s.world.lifecycle.Open? {
        var c :| 0 <= c < |log| && c < |log| && ClosedBy(log[c]);
        assert CloseReceived(log, id);
      }
    }
  }

  /** One more close is turned to. */
  lemma CloseTurnedTo(log: seq<Entry>, later: seq<Entry>, id: Id)
    requires id < |log| == |later| && ClosedBy(later[id])
    requires forall i | 0 <= i < |log| && i != id :: later[i] == log[i]
    ensures forall before: nat | CloseReceived(log, before) :: CloseReceived(later, before)
    ensures CloseReceived(later, |later|)
  {
    forall before: nat | CloseReceived(log, before) ensures CloseReceived(later, before) {
      var c :| 0 <= c < before && c < |log| && ClosedBy(log[c]);
      assert ClosedBy(later[c]);
    }
  }

  lemma DrainOfPendingKeepsClose(setup: Setup, s: State)
    requires PendingInv(s) && CloseInv(s) && Enabled(setup, s, Drain) && FrontIsClose(s)
    ensures CloseInv(Drained(setup, s))
  {
    assert s.pending[0] in s.pending;
    ClosesFramed(s.world.log, Drained(setup, s).world.log);
  }

  lemma DrainOfCloseKeepsClose(setup: Setup, s: State)
    requires InboxInv(s) && CloseInv(s) && LifecycleInv(s) && Enabled(setup, s, Drain)
    requires !FrontIsClose(s) && s.world.channel != [] && s.world.channel[0].Requested?
    requires s.world.log[s.world.channel[0].id].request.Close?
    ensures CloseInv(Drained(setup, s))
  {
    var id := s.world.channel[0].id;
    assert Inbox(s)[0] == id;
    CloseTurnedTo(s.world.log, Drained(setup, s).world.log, id);
  }

  /** A request that comes after a close is turned away. */
  lemma TurnedAwayLate(s: State, t: State, id: Id)
    requires CloseInv(s) && id < |s.world.log| && !s.world.log[id].request.Close? && CloseReceived(s.world.log, id)
    requires t.world.log == Marked(s.world.log, Mark(id, Replied(Refused(StoreClosed))))
    requires t.world.lifecycle == s.world.lifecycle && t.control == s.control
    ensures CloseInv(t)
  {
    ClosesFramed(s.world.log, t.world.log);
  }

  lemma DrainOfOtherKeepsClose(setup: Setup, s: State)
    requires InboxInv(s) && CloseInv(s) && LifecycleInv(s) && Enabled(setup, s, Drain)
    requires !FrontIsClose(s) && s.world.channel != [] && s.world.channel[0].Requested?
    requires !s.world.log[s.world.channel[0].id].request.Close?
    ensures CloseInv(Drained(setup, s))
  {
    var log, id := s.world.log, s.world.channel[0].id;
    assert Inbox(s)[0] == id;
    var c :| 0 <= c < |log| && c < |log| && ClosedBy(log[c]);
    assert CloseReceived(log, id);
    TurnedAwayLate(s, Drained(setup, s), id);
  }

  lemma DrainKeepsClose(setup: Setup, s: State)
    requires InboxInv(s) && PendingInv(s) && CloseInv(s) && LifecycleInv(s) && Enabled(setup, s, Drain)
    ensures CloseInv(Drained(setup, s))
  {
    if FrontIsClose(s) {
      DrainOfPendingKeepsClose(setup, s);
    } else if s.world.channel != [] && s.world.channel[0].Requested? {
      if s.world.log[s.world.channel[0].id].request.Close? {
        DrainOfCloseKeepsClose(setup, s);
      } else {
        DrainOfOtherKeepsClose(setup, s);
      }
    }
  }

  lemma ActionKeepsClose(setup: Setup, s: State, action: Action)
    requires Placed(setup, s) && CloseInv(s) && LifecycleInv(s) && Enabled(setup, s, action)
    ensures CloseInv(Next(setup, s, ByCoordinator(action)))
  {
    match action {
      case Receive => ReceiveKeepsClose(setup, s);
      case Handle => HandleKeepsClose(setup, s);
      case Dispatch(key, grown, fate) => DispatchKeepsClose(setup, s, key, grown, fate);
      case Skip =>
      case EndFilling => EndFillingKeepsClose(setup, s);
      case Advance(grown, fate) => AdvanceKeepsClose(setup, s, grown, fate);
      case Check(_) =>
      case WriteTerminal =>
      case Drain => DrainKeepsClose(setup, s);
      case Disconnect =>
    }
  }
}
