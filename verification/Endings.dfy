/** How a store comes to rest: nothing is stranded, the last handle's drop drains, and close loses nothing. */
module Endings {
  import opened Invariant
  import opened Protocol
  import opened Runs
  import opened StepsControl
  import opened StepsPlaces
  import opened StepsTokens

  ghost predicate AllAnswered(s: State) {
    forall i | 0 <= i < |s.world.log| :: s.world.log[i].status.Replied?
  }

  /** The coordinator holds nothing. */
  ghost predicate HoldsNothing(s: State) {
    s.active == {} && s.queues == map[] && s.pending == [] && !s.maintenanceActive
  }

  /** With nothing held, in hand or in the channel, every request has its answer. */
  lemma HoldingNothingIsAnswered(setup: Setup, s: State)
    requires Placed(setup, s) && HoldsNothing(s) && Inbox(s) == [] && OutcomeInHand(s.control).None?
    ensures AllAnswered(s)
  {
    NobodyRuns(s);
    forall i | 0 <= i < |s.world.log| ensures s.world.log[i].status.Replied? {
      QueuedIsInQueue(s, i);
    }
  }

  lemma QuietTokens(s: State)
    requires TokenInv(s) && s.world.channel == [] && s.world.jobs == []
    ensures s.active == {} && !s.maintenanceActive
  {
    forall key ensures key !in s.active {
      TokenMeansActive(s, key);
    }
  }

  /** Between events: unless the store is at its bound, whatever is queued waits for its key's own
      operation, and whatever is held back waits for something under way. */
  lemma NothingIsStranded(setup: Setup, s: State)
    requires Reachable(setup, s) && s.control.Receiving?
    ensures |s.active| < setup.maximum ==> forall key | QueueNonempty(s.queues, key) :: key in s.active
    ensures s.pending != [] ==> s.active != {} || s.maintenanceActive
    ensures forall key | key in s.active :: Tokens(s.world, key) == 1
  {
    ReachableInv(setup, s);
    forall key | |s.active| < setup.maximum && QueueNonempty(s.queues, key) ensures key in s.active {
      assert !Dispatchable(setup, s, key);
    }
  }

  lemma QuietHoldsNothing(setup: Setup, s: State)
    requires 1 <= setup.maximum && Placed(setup, s) && TokenInv(s) && ControlInv(setup, s)
    requires s.control.Receiving? && s.world.channel == [] && s.world.jobs == []
    ensures HoldsNothing(s) && AllAnswered(s)
  {
    QuietTokens(s);
    assert forall key | key in s.queues :: !Dispatchable(setup, s, key);
    assert s.queues.Keys == {};
    HoldingNothingIsAnswered(setup, s);
  }

  /** An idle store holds no work: when the coordinator waits and nothing is on its way to it, every
      request has been answered. */
  lemma IdleStoreHoldsNothing(setup: Setup, s: State)
    requires Reachable(setup, s) && s.control.Receiving? && s.world.channel == [] && s.world.jobs == []
    ensures HoldsNothing(s) && AllAnswered(s)
  {
    ReachableInv(setup, s);
    QuietHoldsNothing(setup, s);
  }

  lemma SendersGone(setup: Setup, s: State)
    requires Placed(setup, s) && HoldsNothing(s) && s.world.jobs == [] && s.world.handles == 0
    ensures !SendersAlive(s)
  {
  }

  /** The channel reports disconnection exactly when the last handle is gone and every request has been
      answered: dropping the last handle drains the store. */
  lemma DisconnectsExactlyWhenDrained(setup: Setup, s: State)
    requires Reachable(setup, s) && s.control.Receiving? && s.world.channel == []
    ensures Enabled(setup, s, Disconnect) <==> s.world.handles == 0 && AllAnswered(s)
    ensures Enabled(setup, s, Disconnect) ==> HoldsNothing(s)
  {
    ReachableInv(setup, s);
    if Enabled(setup, s, Disconnect) {
      QuietHoldsNothing(setup, s);
    }
    if s.world.handles == 0 && AllAnswered(s) {
      AnsweredHasNoJobs(s);
      QuietHoldsNothing(setup, s);
      SendersGone(setup, s);
    }
  }

  lemma AnsweredHasNoJobs(s: State)
    requires RunningInv(s) && AllAnswered(s)
    ensures s.world.jobs == []
  {
    assert s.world.jobs != [] ==> JobOk(s.world, s.world.jobs[0]);
  }

  // ---------------------------------------------------------------- close

  /** Some close was sent before request `i`. */
  ghost predicate AfterClose(log: seq<Entry>, i: Id) {
    exists c :: 0 <= c < i && c < |log| && log[c].request.Close?
  }

  lemma StoppedHoldsNothing(setup: Setup, s: State)
    requires Placed(setup, s) && ControlInv(setup, s) && s.control.Stopped?
    ensures HoldsNothing(s) && s.world.channel == [] && s.world.jobs == [] && AllAnswered(s)
  {
    HoldingNothingIsAnswered(setup, s);
  }

  lemma LateExactlyAfterClose(s: State)
    requires CloseInv(s) && AllAnswered(s)
    ensures forall i | 0 <= i < |s.world.log| && !s.world.log[i].request.Close? ::
              Late(s.world.log[i]) <==> AfterClose(s.world.log, i)
  {
    var log := s.world.log;
    forall i | 0 <= i < |log| && !log[i].request.Close? ensures Late(log[i]) <==> AfterClose(log, i) {
      if Late(log[i]) {
        var c :| 0 <= c < i && c < |log| && ClosedBy(log[c]);
      }
      if AfterClose(log, i) {
        var c :| 0 <= c < i && c < |log| && log[c].request.Close?;
        assert ClosedBy(log[c]);
      }
    }
  }

  /** Close loses nothing. When the coordinator has returned, nothing is left anywhere; every request is
      answered; exactly the requests sent after the first close were turned away as `StoreClosed`; every
      close got the same outcome; and nothing can be sent any more. */
  lemma CloseLosesNothing(setup: Setup, s: State)
    requires Reachable(setup, s) && s.control.Stopped?
    ensures HoldsNothing(s) && s.world.channel == [] && s.world.jobs == [] && AllAnswered(s)
    ensures forall i | 0 <= i < |s.world.log| && !s.world.log[i].request.Close? ::
              Late(s.world.log[i]) <==> AfterClose(s.world.log, i)
    ensures forall c | 0 <= c < |s.world.log| && s.world.log[c].request.Close? ::
              s.world.log[c].status == Replied(CloseReply(s.control.ok))
    ensures s.world.lifecycle == (if s.control.ok then Closed else ShutdownFailed)
    ensures forall request :: !MoveEnabled(setup, s.world, Send(request))
  {
    ReachableInv(setup, s);
    StoppedHoldsNothing(setup, s);
    LateExactlyAfterClose(s);
  }

  /** From the moment the final state is written, nothing can be sent, so the final drain sees
      everything that was ever sent; and what it skips is nobody's token. */
  lemma NothingIsSentBehindTheDrain(setup: Setup, s: State)
    requires Reachable(setup, s) && s.control.Draining?
    ensures forall request :: !MoveEnabled(setup, s.world, Send(request))
    ensures s.world.jobs == []
    ensures forall e | 0 <= e < |s.world.channel| :: s.world.channel[e].Requested?
  {
    ReachableInv(setup, s);
    PoolMayGoDown(s);
  }

  /** Before the store comes down, only requests sent after a close are turned away as `StoreClosed`. */
  lemma TurnedAwayOnlyAfterClose(setup: Setup, s: State, i: Id)
    requires Reachable(setup, s) && i < |s.world.log| && Late(s.world.log[i])
    ensures AfterClose(s.world.log, i) && !s.world.log[i].request.Close?
  {
    ReachableInv(setup, s);
    assert CloseReceived(s.world.log, i);
  }
}
