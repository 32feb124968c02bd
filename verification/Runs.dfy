/** What holds in every state that any interleaving of submitters, workers and coordinator can reach. */
module Runs {
  import opened Invariant
  import opened Protocol
  import opened StepsControl
  import opened StepsForward
  import opened StepsOrder
  import opened StepsPlaces
  import opened StepsReplay
  import opened StepsTokens

  lemma InitialPlaces(setup: Setup)
    ensures var s := Initial(setup);
            InboxInv(s) && PendingInv(s) && QueueInv(s) && OrderInv(s) && FifoInv(s) && TakenInv(s)
  {
  }

  lemma InitialTokens(setup: Setup)
    ensures var s := Initial(setup); TokenInv(s) && RunningInv(s) && DeliveringInv(s) && PoolInv(setup, s)
  {
  }

  lemma InitialClose(setup: Setup)
    ensures var s := Initial(setup); CloseInv(s) && ControlInv(setup, s) && MaintenanceInv(s) && LifecycleInv(s)
  {
  }

  lemma InitialFiles(setup: Setup)
    ensures EffectInv(Initial(setup)) && ReplayInv(setup, Initial(setup))
  {
  }

  /** The invariant holds when a store is opened. */
  lemma InitialInv(setup: Setup, s: State)
    requires s == Initial(setup)
    ensures Inv(setup, s)
  {
    InitialFiles(setup);
    InitialPlaces(setup);
    InitialTokens(setup);
    InitialClose(setup);
  }

  lemma MoveKeepsInv(setup: Setup, s: State, move: Move)
    requires Inv(setup, s) && MoveEnabled(setup, s.world, move)
    ensures Inv(setup, Next(setup, s, ByOthers(move)))
  {
    MoveKeepsInbox(setup, s, move);
    MoveKeepsPending(setup, s, move);
    MoveKeepsQueues(setup, s, move);
    MoveKeepsOrder(setup, s, move);
    MoveKeepsFifo(setup, s, move);
    MoveKeepsTokens(setup, s, move);
    MoveKeepsRunning(setup, s, move);
    MoveKeepsDelivering(setup, s, move);
    MoveKeepsPool(setup, s, move);
    MoveKeepsClose(setup, s, move);
    MoveKeepsControl(setup, s, move);
    MoveKeepsMaintenance(setup, s, move);
    MoveKeepsEffects(setup, s, move);
    MoveKeepsReplay(setup, s, move);
  }

  lemma ActionKeepsInv(setup: Setup, s: State, action: Action)
    requires 1 <= setup.maximum && Inv(setup, s) && Enabled(setup, s, action)
    ensures Inv(setup, Next(setup, s, ByCoordinator(action)))
  {
    ActionKeepsInbox(setup, s, action);
    ActionKeepsPending(setup, s, action);
    ActionKeepsQueues(setup, s, action);
    ActionKeepsOrder(setup, s, action);
    ActionKeepsFifo(setup, s, action);
    ActionKeepsTokens(setup, s, action);
    ActionKeepsRunning(setup, s, action);
    ActionKeepsDelivering(setup, s, action);
    ActionKeepsPool(setup, s, action);
    ActionKeepsClose(setup, s, action);
    ActionKeepsControl(setup, s, action);
    ActionKeepsMaintenance(setup, s, action);
    ActionKeepsLifecycle(setup, s, action);
    ActionKeepsEffects(setup, s, action);
    ActionKeepsReplay(setup, s, action);
  }

  lemma StepKeepsInv(setup: Setup, s: State, step: Step)
    requires 1 <= setup.maximum && Inv(setup, s) && CanStep(setup, s, step)
    ensures Inv(setup, Next(setup, s, step))
  {
    match step {
      case ByOthers(move) => MoveKeepsInv(setup, s, move);
      case ByCoordinator(action) => ActionKeepsInv(setup, s, action);
    }
  }

  lemma {:induction false} RunKeepsInv(setup: Setup, s: State, steps: seq<Step>)
    requires 1 <= setup.maximum && Inv(setup, s) && IsRun(setup, s, steps)
    ensures Inv(setup, After(setup, s, steps))
    decreases |steps|
  {
    if steps == [] {
    } else {
      StepKeepsInv(setup, s, steps[0]);
      RunKeepsInv(setup, Next(setup, s, steps[0]), steps[1..]);
    }
  }

  /** Some interleaving leads from the freshly opened store to `s`. */
  ghost predicate Reachable(setup: Setup, s: State) {
    && 1 <= setup.maximum
    && exists steps :: IsRun(setup, Initial(setup), steps) && After(setup, Initial(setup), steps) == s
  }

  /** The invariant holds in every reachable state. */
  lemma ReachableInv(setup: Setup, s: State)
    requires Reachable(setup, s)
    ensures Inv(setup, s)
  {
    var steps :| IsRun(setup, Initial(setup), steps) && After(setup, Initial(setup), steps) == s;
    InitialInv(setup, Initial(setup));
    RunKeepsInv(setup, Initial(setup), steps);
  }

  lemma {:induction false} RunsCompose(setup: Setup, s: State, steps: seq<Step>, step: Step)
    requires IsRun(setup, s, steps) && CanStep(setup, After(setup, s, steps), step)
    ensures IsRun(setup, s, steps + [step])
    ensures After(setup, s, steps + [step]) == Next(setup, After(setup, s, steps), step)
    decreases |steps|
  {
    if steps == [] {
      assert [step][1..] == [];
    } else {
      RunsCompose(setup, Next(setup, s, steps[0]), steps[1..], step);
      assert (steps + [step])[1..] == steps[1..] + [step];
    }
  }

  lemma StepStaysReachable(setup: Setup, s: State, step: Step)
    requires Reachable(setup, s) && CanStep(setup, s, step)
    ensures Reachable(setup, Next(setup, s, step))
  {
    var steps :| IsRun(setup, Initial(setup), steps) && After(setup, Initial(setup), steps) == s;
    RunsCompose(setup, Initial(setup), steps, step);
  }

  // ---------------------------------------------------------------- answers are final

  lemma StepIsForward(setup: Setup, s: State, step: Step)
    requires Inv(setup, s) && CanStep(setup, s, step)
    ensures LogForward(s.world.log, Next(setup, s, step).world.log, true)
  {
    match step {
      case ByOthers(move) => MoveIsForward(setup, s, move);
      case ByCoordinator(action) => ActionIsForward(setup, s, action);
    }
  }

  /** Whatever happens later, an answer stays what it was; Answers.dfy adds that it is not sent again. */
  lemma {:induction false} AnswersAreFinal(setup: Setup, s: State, steps: seq<Step>, id: Id)
    requires 1 <= setup.maximum && Inv(setup, s) && IsRun(setup, s, steps)
    requires id < |s.world.log| && s.world.log[id].status.Replied?
    ensures id < |After(setup, s, steps).world.log|
    ensures After(setup, s, steps).world.log[id].status == s.world.log[id].status
    decreases |steps|
  {
    if steps == [] {
    } else {
      var t := Next(setup, s, steps[0]);
      StepIsForward(setup, s, steps[0]);
      assert Forward(s.world.log[id], t.world.log[id], true);
      StepKeepsInv(setup, s, steps[0]);
      AnswersAreFinal(setup, t, steps[1..], id);
    }
  }
}
