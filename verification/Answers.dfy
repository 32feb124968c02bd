/** No request is answered twice. Each step of the machine writes to at most one reply channel; here these
    writes are counted over whole runs. */
module Answers {
  import opened Invariant
  import opened Operations
  import opened Protocol
  import opened Runs
  import opened StepsPlaces

  /** What a step of a submitter or a worker does to an earlier request. */
  function MoveMark(setup: Setup, w: World, move: Move): Mark
    requires MoveEnabled(setup, w, move)
  {
    match move
    case Conclude(at, _, None) => Mark(w.jobs[at].id, Replied(Dropped))
    case ConcludeMaintenance(at, true) => Mark(w.jobs[at].id, Replied(Dropped))
    case _ => Unmarked
  }

  /** What a step of the coordinator does to a request. */
  function ActionMark(setup: Setup, s: State, action: Action): Mark
    requires Enabled(setup, s, action)
  {
    match action
    case Receive => ReceiveMark(s.world.channel[0])
    case Handle => Mark(s.control.id, HandleStatus(s, s.world.log[s.control.id].request))
    case Dispatch(key, _, fate) => Mark(s.queues[key][0], FateStatus(fate))
    case EndFilling => EndFillingMark(s.control.next)
    case Advance(_, fate) => if RoundOf(s).Stay? then Unmarked else Mark(s.pending[0], RoundStatus(RoundOf(s), fate))
    case Drain => DrainMark(s, s.control.ok)
    case _ => Unmarked
  }

  function MarkOf(setup: Setup, s: State, step: Step): Mark
    requires CanStep(setup, s, step)
  {
    match step
    case ByOthers(move) => MoveMark(setup, s.world, move)
    case ByCoordinator(action) => ActionMark(setup, s, action)
  }

  /** The mark is all that becomes of earlier requests' states. */
  ghost predicate MarksAre(log: seq<Entry>, later: seq<Entry>, mark: Mark) {
    && |log| <= |later| && (mark.Mark? ==> mark.id < |log|)
    && forall i | 0 <= i < |log| ::
         later[i].status == if mark.Mark? && mark.id == i then mark.status else log[i].status
  }

  predicate Answers(mark: Mark, id: Id) {
    mark.Mark? && mark.id == id && mark.status.Replied?
  }

  lemma MoveMarks(setup: Setup, s: State, move: Move)
    requires MoveEnabled(setup, s.world, move)
    ensures MarksAre(s.world.log, Moved(setup, s.world, move).log, MoveMark(setup, s.world, move))
  {
  }

  lemma ActionMarks(setup: Setup, s: State, action: Action)
    requires Enabled(setup, s, action)
    ensures MarksAre(s.world.log, Acted(setup, s, action).world.log, ActionMark(setup, s, action))
  {
  }

  lemma StepMarks(setup: Setup, s: State, step: Step)
    requires CanStep(setup, s, step)
    ensures MarksAre(s.world.log, Next(setup, s, step).world.log, MarkOf(setup, s, step))
  {
    match step {
      case ByOthers(move) => MoveMarks(setup, s, move);
      case ByCoordinator(action) => ActionMarks(setup, s, action);
    }
  }

  /** The mark goes to a request that has no answer yet. */
  ghost predicate ToUnanswered(log: seq<Entry>, mark: Mark) {
    mark.Mark? ==> mark.id < |log| && !log[mark.id].status.Replied?
  }

  lemma MoveMarksUnanswered(setup: Setup, s: State, move: Move)
    requires RunningInv(s) && MoveEnabled(setup, s.world, move)
    ensures ToUnanswered(s.world.log, MoveMark(setup, s.world, move))
  {
    if move.Conclude? || move.ConcludeMaintenance? {
      assert JobOk(s.world, s.world.jobs[move.job]);
    }
  }

  lemma ReceiveMarksUnanswered(s: State)
    requires RunningInv(s) && s.world.channel != []
    ensures ToUnanswered(s.world.log, ReceiveMark(s.world.channel[0]))
  {
    assert EventOk(s.world, s.world.channel[0]);
  }

  lemma DispatchMarksUnanswered(s: State, key: KeyHash, status: Status)
    requires QueueInv(s) && QueueNonempty(s.queues, key)
    ensures ToUnanswered(s.world.log, Mark(s.queues[key][0], status))
  {
    assert QueueOk(s.world.log, key, s.queues[key]);
    assert s.queues[key][0] in s.queues[key];
  }

  lemma PendingMarksUnanswered(s: State, status: Status)
    requires PendingInv(s) && s.pending != []
    ensures ToUnanswered(s.world.log, Mark(s.pending[0], status))
  {
    assert s.pending[0] in s.pending;
  }

  lemma InboxMarksUnanswered(s: State, status: Status)
    requires InboxInv(s) && Inbox(s) != []
    ensures ToUnanswered(s.world.log, Mark(Inbox(s)[0], status))
  {
  }

  lemma DrainMarksUnanswered(setup: Setup, s: State)
    requires InboxInv(s) && PendingInv(s) && Enabled(setup, s, Drain)
    ensures ToUnanswered(s.world.log, DrainMark(s, s.control.ok))
  {
    var mark := DrainMark(s, s.control.ok);
    if FrontIsClose(s) {
      PendingMarksUnanswered(s, mark.status);
    } else if mark.Mark? {
      InboxMarksUnanswered(s, mark.status);
    }
  }

  lemma AdvanceMarksUnanswered(setup: Setup, s: State, grown: nat, fate: Fate)
    requires PendingInv(s) && Enabled(setup, s, Advance(grown, fate))
    ensures ToUnanswered(s.world.log, ActionMark(setup, s, Advance(grown, fate)))
  {
    if s.pending != [] {
      PendingMarksUnanswered(s, RoundStatus(RoundOf(s), fate));
    }
  }

  lemma ActionMarksUnanswered(setup: Setup, s: State, action: Action)
    requires Placed(setup, s) && Enabled(setup, s, action)
    ensures ToUnanswered(s.world.log, ActionMark(setup, s, action))
  {
    match action {
      case Receive => ReceiveMarksUnanswered(s);
      case Handle => InboxMarksUnanswered(s, HandleStatus(s, s.world.log[s.control.id].request));
      case Dispatch(key, _, fate) => DispatchMarksUnanswered(s, key, FateStatus(fate));
      case EndFilling =>
      case Advance(grown, fate) => AdvanceMarksUnanswered(setup, s, grown, fate);
      case Drain => DrainMarksUnanswered(setup, s);
      case _ =>
    }
  }

  /** Whatever a step writes, it writes to a request that has no answer yet. */
  lemma StepMarksUnanswered(setup: Setup, s: State, step: Step)
    requires Inv(setup, s) && CanStep(setup, s, step)
    ensures ToUnanswered(s.world.log, MarkOf(setup, s, step))
  {
    match step {
      case ByOthers(move) => MoveMarksUnanswered(setup, s, move);
      case ByCoordinator(action) => ActionMarksUnanswered(setup, s, action);
    }
  }

  // ---------------------------------------------------------------- over whole runs

  /** How often request `id` is answered in a run. */
  ghost function AnswersTo(setup: Setup, s: State, steps: seq<Step>, id: Id): nat
    requires IsRun(setup, s, steps)
    decreases |steps|
  {
    if steps == [] then 0
    else
      (if Answers(MarkOf(setup, s, steps[0]), id) then 1 else 0)
      + AnswersTo(setup, Next(setup, s, steps[0]), steps[1..], id)
  }

  /** 1 for a request that has its answer, and 0 for one that is not there or has none yet. */
  function AnswersIn(s: State, id: Id): nat {
    if id < |s.world.log| && s.world.log[id].status.Replied? then 1 else 0
  }

  lemma StepAnswers(setup: Setup, s: State, step: Step, t: State, id: Id)
    requires Inv(setup, s) && CanStep(setup, s, step) && t == Next(setup, s, step)
    ensures AnswersIn(t, id) == AnswersIn(s, id) + if Answers(MarkOf(setup, s, step), id) then 1 else 0
  {
    StepMarks(setup, s, step);
    StepMarksUnanswered(setup, s, step);
    StepIsForward(setup, s, step);
  }

  lemma {:induction false} RunAnswers(setup: Setup, s: State, steps: seq<Step>, id: Id)
    requires 1 <= setup.maximum && Inv(setup, s) && IsRun(setup, s, steps)
    ensures AnswersIn(After(setup, s, steps), id) == AnswersIn(s, id) + AnswersTo(setup, s, steps, id)
    decreases |steps|
  {
    if steps == [] {
    } else {
      var t := Next(setup, s, steps[0]);
      StepAnswers(setup, s, steps[0], t, id);
      StepKeepsInv(setup, s, steps[0]);
      RunAnswers(setup, t, steps[1..], id);
    }
  }

  /** Over any run, from a freshly opened store or from any later state, every request is answered at most
      once: the answers given are exactly those that it has in the end and did not have in the beginning. */
  lemma AnsweredAtMostOnce(setup: Setup, s: State, steps: seq<Step>, id: Id)
    requires Reachable(setup, s) && IsRun(setup, s, steps)
    ensures AnswersIn(s, id) + AnswersTo(setup, s, steps, id) == AnswersIn(After(setup, s, steps), id) <= 1
  {
    ReachableInv(setup, s);
    RunAnswers(setup, s, steps, id);
  }
}
