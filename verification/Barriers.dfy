/** Flushes and maintenance are exact barriers: everything sent earlier is answered before them, and
    nothing sent later is let in before they are answered. */
module Barriers {
  import opened Invariant
  import opened Operations
  import opened Protocol
  import opened Runs
  import opened StepsForward
  import opened StepsPlaces

  predicate IsBarrier(request: Request) {
    request.Flush? || request.Maintain?
  }

  /** Past `pending`, and not turned away. */
  predicate LetIn(entry: Entry) {
    !entry.request.Close? && Rank(entry) == 2
  }

  ghost predicate BarrierInv(s: State) {
    forall b, i | 0 <= b < i < |s.world.log| && LetIn(s.world.log[i]) && !s.world.log[b].request.Close?
                  && (IsBarrier(s.world.log[b].request) || IsBarrier(s.world.log[i].request)) ::
      s.world.log[b].status.Replied?
  }

  lemma ForwardAtLeast(log: seq<Entry>, later: seq<Entry>, departing: bool)
    requires LogForward(log, later, departing)
    ensures LogForward(log, later, true)
  {
    forall i | 0 <= i < |log| ensures Forward(log[i], later[i], true) {
      assert Forward(log[i], later[i], departing);
    }
  }

  /** Steps that let nobody in. */
  lemma BarriersFramed(s: State, t: State)
    requires BarrierInv(s) && LogForward(s.world.log, t.world.log, true)
    requires forall i | 0 <= i < |t.world.log| && LetIn(t.world.log[i]) :: i < |s.world.log| && LetIn(s.world.log[i])
    ensures BarrierInv(t)
  {
    forall b, i | 0 <= b < i < |t.world.log| && LetIn(t.world.log[i]) && !t.world.log[b].request.Close?
                  && (IsBarrier(t.world.log[b].request) || IsBarrier(t.world.log[i].request))
      ensures t.world.log[b].status.Replied?
    {
      assert Forward(s.world.log[b], t.world.log[b], true) && Forward(s.world.log[i], t.world.log[i], true);
    }
  }

  /** One request is let in, at a moment when that is right. */
  lemma BarriersAdmit(s: State, t: State, id: Id, status: Status)
    requires BarrierInv(s) && id < |s.world.log| && t.world.log == Marked(s.world.log, Mark(id, status))
    requires !s.world.log[id].status.Replied?
    requires forall b | 0 <= b < id && !s.world.log[b].request.Close?
                        && (IsBarrier(s.world.log[b].request) || IsBarrier(s.world.log[id].request)) ::
               s.world.log[b].status.Replied?
    requires IsBarrier(s.world.log[id].request) ==>
               forall i | id < i < |s.world.log| :: !LetIn(s.world.log[i])
    ensures BarrierInv(t)
  {
  }

  /** With nothing in hand and no maintenance under way, a request that was turned to and is not held
      back is over, unless it is an operation and the store is busy. */
  lemma NobodyBefore(setup: Setup, s: State, b: Id)
    requires Placed(setup, s) && !s.maintenanceActive && OutcomeInHand(s.control).None?
    requires b < |s.world.log| && !s.world.log[b].request.Close?
    requires !s.world.log[b].status.Waiting? && b !in s.pending
    requires IsBarrier(s.world.log[b].request) || Idle(s)
    ensures s.world.log[b].status.Replied?
  {
    var entry := s.world.log[b];
    QueuedIsInQueue(s, b);
    RunningIsActive(s, b);
  }

  lemma HandleKeepsBarriers(setup: Setup, s: State)
    requires Placed(setup, s) && BarrierInv(s) && Enabled(setup, s, Handle)
    ensures BarrierInv(Handled(setup, s))
  {
    HandleKeepsInbox(setup, s);
    var log, id := s.world.log, s.control.id;
    if HandleStatus(s, log[id].request).Queued? {
      forall b | 0 <= b < id && IsBarrier(log[b].request) ensures log[b].status.Replied? {
        NobodyBefore(setup, s, b);
      }
      BarriersAdmit(s, Handled(setup, s), id, Queued);
    } else {
      HandleIsForward(setup, s);
      BarriersFramed(s, Handled(setup, s));
    }
  }

  /** A flush is answered, and maintenance started, only when everything sent before is over; and while
      either is held back, nothing sent after it is let in. */
  lemma FrontIsExact(setup: Setup, s: State, grown: nat, fate: Fate)
    requires Placed(setup, s) && OrderInv(s) && Enabled(setup, s, Advance(grown, fate)) && !RoundOf(s).Stay?
    ensures s.pending[0] in s.pending && s.world.log[s.pending[0]].status.Deferred?
    ensures forall b | 0 <= b < s.pending[0] && !s.world.log[b].request.Close?
                       && (IsBarrier(s.world.log[b].request) || IsBarrier(s.world.log[s.pending[0]].request)) ::
              s.world.log[b].status.Replied?
    ensures forall i | s.pending[0] < i < |s.world.log| :: !LetIn(s.world.log[i])
  {
    var log, id := s.world.log, s.pending[0];
    assert id in s.pending;
    forall b | 0 <= b < id && !log[b].request.Close? && (IsBarrier(log[b].request) || IsBarrier(log[id].request))
      ensures log[b].status.Replied?
    {
      NobodyBefore(setup, s, b);
    }
    forall i | id < i < |log| ensures !LetIn(log[i]) {
      assert !log[i].request.Close? && !log[id].request.Close? && Rank(log[i]) > Rank(log[id]) ==> i < id;
    }
  }

  lemma AdvanceKeepsBarriers(setup: Setup, s: State, grown: nat, fate: Fate)
    requires Placed(setup, s) && OrderInv(s) && BarrierInv(s) && Enabled(setup, s, Advance(grown, fate))
    ensures BarrierInv(Advanced(setup, s, grown, fate))
  {
    var round := RoundOf(s);
    if !round.Stay? {
      FrontIsExact(setup, s, grown, fate);
      BarriersAdmit(s, Advanced(setup, s, grown, fate), s.pending[0], RoundStatus(round, fate));
    }
  }

  ghost predicate NobodyLetIn(log: seq<Entry>, later: seq<Entry>) {
    forall i | 0 <= i < |later| && LetIn(later[i]) :: i < |log| && LetIn(log[i])
  }

  lemma MoveLetsNobodyIn(setup: Setup, s: State, move: Move)
    requires RunningInv(s) && MoveEnabled(setup, s.world, move)
    ensures NobodyLetIn(s.world.log, Moved(setup, s.world, move).log)
  {
    if move.Conclude? || move.ConcludeMaintenance? {
      assert JobOk(s.world, s.world.jobs[move.job]);
    }
  }

  lemma DispatchLetsNobodyIn(setup: Setup, s: State, key: KeyHash, grown: nat, fate: Fate)
    requires QueueInv(s) && Enabled(setup, s, Dispatch(key, grown, fate))
    ensures NobodyLetIn(s.world.log, Dispatched(setup, s, key, grown, fate).world.log)
  {
    assert QueueOk(s.world.log, key, s.queues[key]);
    assert s.queues[key][0] in s.queues[key];
  }

  lemma ReceiveLetsNobodyIn(setup: Setup, s: State)
    requires RunningInv(s) && Enabled(setup, s, Receive)
    ensures NobodyLetIn(s.world.log, Received(setup, s).world.log)
  {
    assert EventOk(s.world, s.world.channel[0]);
  }

  lemma EndFillingLetsNobodyIn(setup: Setup, s: State)
    requires DeliveringInv(s) && Enabled(setup, s, EndFilling)
    ensures NobodyLetIn(s.world.log, EndedFilling(setup, s).world.log)
  {
  }

  lemma DrainLetsNobodyIn(setup: Setup, s: State)
    requires Enabled(setup, s, Drain)
    ensures NobodyLetIn(s.world.log, Drained(setup, s).world.log)
  {
  }

  /** Requests are let in only when they are handled, or when `pending` advances. */
  lemma OthersLetNobodyIn(setup: Setup, s: State, action: Action)
    requires Placed(setup, s) && Enabled(setup, s, action) && !action.Handle? && !action.Advance?
    ensures NobodyLetIn(s.world.log, Acted(setup, s, action).world.log)
  {
    match action {
      case Receive => ReceiveLetsNobodyIn(setup, s);
      case Dispatch(key, grown, fate) => DispatchLetsNobodyIn(setup, s, key, grown, fate);
      case EndFilling => EndFillingLetsNobodyIn(setup, s);
      case Drain => DrainLetsNobodyIn(setup, s);
      case _ =>
    }
  }

  lemma MoveKeepsBarriers(setup: Setup, s: State, move: Move)
    requires RunningInv(s) && BarrierInv(s) && MoveEnabled(setup, s.world, move)
    ensures BarrierInv(Next(setup, s, ByOthers(move)))
  {
    MoveIsForward(setup, s, move);
    MoveLetsNobodyIn(setup, s, move);
    BarriersFramed(s, Next(setup, s, ByOthers(move)));
  }

  lemma ActionKeepsBarriers(setup: Setup, s: State, action: Action)
    requires Placed(setup, s) && OrderInv(s) && BarrierInv(s) && Enabled(setup, s, action)
    ensures BarrierInv(Acted(setup, s, action))
  {
    match action {
      case Handle => HandleKeepsBarriers(setup, s);
      case Advance(grown, fate) => AdvanceKeepsBarriers(setup, s, grown, fate);
      case _ => OthersKeepBarriers(setup, s, Acted(setup, s, action), action);
    }
  }

  lemma OthersKeepBarriers(setup: Setup, s: State, t: State, action: Action)
    requires Placed(setup, s) && BarrierInv(s) && Enabled(setup, s, action) && !action.Handle? && !action.Advance?
    requires t == Acted(setup, s, action)
    ensures BarrierInv(t)
  {
    ActionIsForward(setup, s, action);
    OthersLetNobodyIn(setup, s, action);
    ForwardAtLeast(s.world.log, t.world.log, action.Dispatch?);
    BarriersFramed(s, t);
  }

  lemma StepKeepsBarriers(setup: Setup, s: State, step: Step)
    requires Inv(setup, s) && BarrierInv(s) && CanStep(setup, s, step)
    ensures BarrierInv(Next(setup, s, step))
  {
    match step {
      case ByOthers(move) => MoveKeepsBarriers(setup, s, move);
      case ByCoordinator(action) => ActionKeepsBarriers(setup, s, action);
    }
  }

  lemma {:induction false} RunKeepsBarriers(setup: Setup, s: State, steps: seq<Step>)
    requires 1 <= setup.maximum && Inv(setup, s) && BarrierInv(s) && IsRun(setup, s, steps)
    ensures BarrierInv(After(setup, s, steps))
    decreases |steps|
  {
    if steps == [] {
    } else {
      StepKeepsInv(setup, s, steps[0]);
      StepKeepsBarriers(setup, s, steps[0]);
      RunKeepsBarriers(setup, Next(setup, s, steps[0]), steps[1..]);
    }
  }

  lemma ReachableBarriers(setup: Setup, s: State)
    requires Reachable(setup, s)
    ensures BarrierInv(s) && EffectInv(s)
  {
    var steps :| IsRun(setup, Initial(setup), steps) && After(setup, Initial(setup), steps) == s;
    InitialInv(setup, Initial(setup));
    RunKeepsBarriers(setup, Initial(setup), steps);
    ReachableInv(setup, s);
  }

  /** In every reachable state: when a flush has been answered with success, or maintenance has started,
      every request sent before it has its answer; and as long as a flush or maintenance has no answer,
      no request sent after it has been let in, so none has touched a file. */
  lemma BarriersAreExact(setup: Setup, s: State, b: Id, i: Id)
    requires Reachable(setup, s) && b < i < |s.world.log|
    requires !s.world.log[b].request.Close? && !s.world.log[i].request.Close?
    ensures IsBarrier(s.world.log[i].request) && LetIn(s.world.log[i]) ==> s.world.log[b].status.Replied?
    ensures IsBarrier(s.world.log[b].request) && !s.world.log[b].status.Replied? ==>
              !LetIn(s.world.log[i]) && s.world.log[i].effect.None?
  {
    ReachableBarriers(setup, s);
    assert EffectMatches(s.world.log[i]);
  }

  /** While maintenance is active no operation is under way, and no step starts one. */
  lemma MaintenanceIsAlone(setup: Setup, s: State, step: Step)
    requires Reachable(setup, s) && s.maintenanceActive && CanStep(setup, s, step)
    ensures s.active == {} && AllQueuesEmpty(s.queues)
    ensures forall i | 0 <= i < |s.world.log| && s.world.log[i].request.Operate? ::
              !s.world.log[i].status.Queued? && !s.world.log[i].status.Running?
    ensures !(step.ByCoordinator? && step.action.Dispatch?)
  {
    ReachableInv(setup, s);
    forall i | 0 <= i < |s.world.log| && s.world.log[i].request.Operate?
      ensures !s.world.log[i].status.Queued? && !s.world.log[i].status.Running?
    {
      QueuedIsInQueue(s, i);
      RunningIsActive(s, i);
    }
  }
}
