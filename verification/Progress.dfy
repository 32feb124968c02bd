/** Every request is answered, unless the callers of streams stall: without further requests the store can
    only take so many steps, and it can always take one until every request has its answer or is held up
    by a caller. */
module Progress {
  import opened Endings
  import opened Invariant
  import opened Operations
  import opened Protocol
  import opened Results
  import opened Runs
  import opened StepsPlaces
  import opened StepsTokens

  // ---------------------------------------------------------------- what is still to be done

  /** How many steps a request may still cost, at most. */
  function Cost(status: Status): nat {
    match status
    case Waiting => 13
    case Deferred => 13
    case Queued => 11
    case Running => 2
    case Delivering => 1
    case Replied(_) => 0
  }

  function JobCost(job: Job): nat {
    if job.OperationJob? && job.stage.Opened? then 7 else 8
  }

  function PlaceCost(control: Control): nat {
    match control
    case Stopped(_) => 0
    case Draining(_) => 1
    case PoolDown(_) => 2
    case Receiving => 3
    case Checking => 4
    case Advancing => 5
    case Readmitting(_) => 6
    case Filling(_) => 6
    case Retrying(_, _) => 7
    case Handling(_) => 8
  }

  function LogCost(log: seq<Entry>): nat {
    if log == [] then 0 else LogCost(log[..|log| - 1]) + Cost(log[|log| - 1].status)
  }

  function JobsCost(jobs: seq<Job>): nat {
    if jobs == [] then 0 else JobsCost(jobs[..|jobs| - 1]) + JobCost(jobs[|jobs| - 1])
  }

  function Potential(s: State): nat {
    PlaceCost(s.control) + 6 * |s.world.channel| + JobsCost(s.world.jobs) + LogCost(s.world.log)
  }

  lemma {:induction false} LogCostUpdated(log: seq<Entry>, id: Id, entry: Entry)
    requires id < |log|
    ensures LogCost(log[id := entry]) == LogCost(log) - Cost(log[id].status) + Cost(entry.status)
  {
    var later := log[id := entry];
    if id == |log| - 1 {
      assert later[..|log| - 1] == log[..|log| - 1];
    } else {
      assert later[..|log| - 1] == log[..|log| - 1][id := entry];
      LogCostUpdated(log[..|log| - 1], id, entry);
    }
  }

  lemma {:induction false} JobsCostWithout(jobs: seq<Job>, at: nat)
    requires at < |jobs|
    ensures JobsCost(Without(jobs, at)) == JobsCost(jobs) - JobCost(jobs[at])
  {
    var rest := Without(jobs, at);
    if at == |jobs| - 1 {
      assert rest == jobs[..at];
    } else {
      assert rest[..|rest| - 1] == Without(jobs[..|jobs| - 1], at);
      JobsCostWithout(jobs[..|jobs| - 1], at);
    }
  }

  lemma {:induction false} JobsCostUpdated(jobs: seq<Job>, at: nat, job: Job)
    requires at < |jobs|
    ensures JobsCost(jobs[at := job]) == JobsCost(jobs) - JobCost(jobs[at]) + JobCost(job)
  {
    var later := jobs[at := job];
    if at == |jobs| - 1 {
      assert later[..|jobs| - 1] == jobs[..|jobs| - 1];
    } else {
      assert later[..|jobs| - 1] == jobs[..|jobs| - 1][at := job];
      JobsCostUpdated(jobs[..|jobs| - 1], at, job);
    }
  }

  lemma JobsCostAppended(jobs: seq<Job>, job: Job)
    ensures JobsCost(jobs + [job]) == JobsCost(jobs) + JobCost(job)
  {
    assert (jobs + [job])[..|jobs|] == jobs;
  }

  // ---------------------------------------------------------------- every step costs

  /** A step of the coordinator or of a worker. */
  predicate IsWork(step: Step) {
    step.ByCoordinator? || step.move.Observe? || step.move.Conclude? || step.move.ConcludeMaintenance?
  }

  /** What is left to do besides the coordinator's own place. */
  function WorldCost(w: World): nat {
    6 * |w.channel| + JobsCost(w.jobs) + LogCost(w.log)
  }

  /** A job ends: it is gone, an event is sent, and its request may be answered. */
  lemma EndingCosts(w: World, later: World, at: nat, id: Id, event: Event)
    requires at < |w.jobs| && id < |w.log| && |later.log| == |w.log|
    requires later.log == w.log[id := later.log[id]] && Cost(later.log[id].status) <= Cost(w.log[id].status)
    requires later.jobs == Without(w.jobs, at) && later.channel == w.channel + [event]
    ensures WorldCost(later) < WorldCost(w)
  {
    JobsCostWithout(w.jobs, at);
    LogCostUpdated(w.log, id, later.log[id]);
  }

  lemma MoveCosts(setup: Setup, s: State, move: Move)
    requires MoveEnabled(setup, s.world, move) && IsWork(ByOthers(move))
    ensures Potential(Next(setup, s, ByOthers(move))) < Potential(s)
  {
    var w, later := s.world, Moved(setup, s.world, move);
    assert WorldCost(later) < WorldCost(w) by {
      match move {
        case Observe(at) => JobsCostUpdated(w.jobs, at, later.jobs[at]);
        case Conclude(at, _, _) => EndingCosts(w, later, at, w.jobs[at].id, later.channel[|w.channel|]);
        case ConcludeMaintenance(at, _) => EndingCosts(w, later, at, w.jobs[at].id, later.channel[|w.channel|]);
      }
    }
  }

  lemma MarkCosts(log: seq<Entry>, mark: Mark)
    requires mark.Mark? ==> mark.id < |log|
    ensures mark.Unmarked? ==> Marked(log, mark) == log
    ensures mark.Mark? ==> LogCost(Marked(log, mark)) == LogCost(log) - Cost(log[mark.id].status) + Cost(mark.status)
  {
    if mark.Mark? {
      LogCostUpdated(log, mark.id, log[mark.id].(status := mark.status));
    }
  }

  lemma ReceiveCosts(setup: Setup, s: State, t: State)
    requires RunningInv(s) && Enabled(setup, s, Receive)
    requires t == Received(setup, s)
    ensures Potential(t) < Potential(s)
  {
    assert EventOk(s.world, s.world.channel[0]);
    MarkCosts(s.world.log, ReceiveMark(s.world.channel[0]));
  }

  lemma HandleCosts(setup: Setup, s: State, t: State)
    requires InboxInv(s) && Enabled(setup, s, Handle)
    requires t == Handled(setup, s)
    ensures Potential(t) < Potential(s)
  {
    HandleKeepsInbox(setup, s);
    MarkCosts(s.world.log, Mark(s.control.id, HandleStatus(s, s.world.log[s.control.id].request)));
  }

  /** A job that is handed over costs less than the request did. */
  lemma JobCostsLess(s: State, t: State, id: Id, job: Job)
    requires id < |s.world.log| && t.world.log == Marked(s.world.log, Mark(id, Running))
    requires s.world.log[id].status.Queued? || s.world.log[id].status.Deferred?
    requires t.world.channel == s.world.channel && t.world.jobs == s.world.jobs + [job]
    requires PlaceCost(t.control) <= PlaceCost(s.control)
    ensures Potential(t) < Potential(s)
  {
    JobsCostAppended(s.world.jobs, job);
    MarkCosts(s.world.log, Mark(id, Running));
  }

  /** So does giving it up, even if a completion has to be sent. */
  lemma GivingUpCostsLess(s: State, t: State, id: Id, reply: Reply)
    requires id < |s.world.log| && t.world.log == Marked(s.world.log, Mark(id, Replied(reply)))
    requires s.world.log[id].status.Queued? || s.world.log[id].status.Deferred?
    requires |t.world.channel| <= |s.world.channel| + 1 && t.world.jobs == s.world.jobs
    requires PlaceCost(t.control) <= PlaceCost(s.control)
    ensures Potential(t) < Potential(s)
  {
    MarkCosts(s.world.log, Mark(id, Replied(reply)));
  }

  lemma DispatchCosts(setup: Setup, s: State, t: State, key: KeyHash, grown: nat, fate: Fate)
    requires QueueInv(s) && Enabled(setup, s, Dispatch(key, grown, fate))
    requires t == Dispatched(setup, s, key, grown, fate)
    ensures Potential(t) < Potential(s)
  {
    var id := s.queues[key][0];
    assert QueueOk(s.world.log, key, s.queues[key]);
    assert id in s.queues[key];
    if fate.Started? {
      JobCostsLess(s, t, id, OperationJob(key, id, Ready));
    } else {
      GivingUpCostsLess(s, t, id, FateStatus(fate).reply);
    }
  }

  lemma StartCosts(setup: Setup, s: State, t: State, grown: nat, fate: Fate)
    requires PendingInv(s) && Enabled(setup, s, Advance(grown, fate)) && RoundOf(s).StartMaintenance?
    requires t == Advanced(setup, s, grown, fate)
    ensures Potential(t) < Potential(s)
  {
    assert s.pending[0] in s.pending;
    if fate.Started? {
      JobCostsLess(s, t, s.pending[0], MaintenanceJob(s.pending[0]));
    } else {
      GivingUpCostsLess(s, t, s.pending[0], FateStatus(fate).reply);
    }
  }

  lemma AdvanceCosts(setup: Setup, s: State, t: State, grown: nat, fate: Fate)
    requires PendingInv(s) && Enabled(setup, s, Advance(grown, fate))
    requires t == Advanced(setup, s, grown, fate)
    ensures Potential(t) < Potential(s)
  {
    var round := RoundOf(s);
    if round.StartMaintenance? {
      StartCosts(setup, s, t, grown, fate);
    } else if !round.Stay? {
      assert s.pending[0] in s.pending;
      MarkCosts(s.world.log, Mark(s.pending[0], RoundStatus(round, fate)));
    }
  }

  lemma DrainCosts(setup: Setup, s: State, t: State)
    requires PendingInv(s) && Enabled(setup, s, Drain)
    requires t == Drained(setup, s)
    ensures Potential(t) < Potential(s)
  {
    assert FrontIsClose(s) ==> s.pending[0] in s.pending;
    MarkCosts(s.world.log, DrainMark(s, s.control.ok));
  }

  lemma EndFillingCosts(setup: Setup, s: State, t: State)
    requires Enabled(setup, s, EndFilling)
    requires t == EndedFilling(setup, s)
    ensures Potential(t) < Potential(s)
  {
    MarkCosts(s.world.log, EndFillingMark(s.control.next));
  }

  /** Steps that only move the coordinator on. */
  lemma MovingOnCosts(s: State, t: State)
    requires t.world.log == s.world.log && t.world.channel == s.world.channel && t.world.jobs == s.world.jobs
    requires PlaceCost(t.control) < PlaceCost(s.control)
    ensures Potential(t) < Potential(s)
  {
  }

  lemma ActionCosts(setup: Setup, s: State, t: State, action: Action)
    requires Placed(setup, s) && Enabled(setup, s, action)
    requires t == Acted(setup, s, action)
    ensures Potential(t) < Potential(s)
  {
    match action {
      case Receive => ReceiveCosts(setup, s, t);
      case Handle => HandleCosts(setup, s, t);
      case Dispatch(key, grown, fate) => DispatchCosts(setup, s, t, key, grown, fate);
      case Skip => MovingOnCosts(s, t);
      case EndFilling => EndFillingCosts(setup, s, t);
      case Advance(grown, fate) => AdvanceCosts(setup, s, t, grown, fate);
      case Check(_) => MovingOnCosts(s, t);
      case WriteTerminal => MovingOnCosts(s, t);
      case Drain => DrainCosts(setup, s, t);
      case Disconnect => MovingOnCosts(s, t);
    }
  }

  lemma StepCosts(setup: Setup, s: State, step: Step)
    requires Placed(setup, s) && CanStep(setup, s, step) && IsWork(step)
    ensures Potential(Next(setup, s, step)) < Potential(s)
  {
    match step {
      case ByOthers(move) => MoveCosts(setup, s, move);
      case ByCoordinator(action) => ActionCosts(setup, s, Acted(setup, s, action), action);
    }
  }

  /** What a submitter adds: a request and its event, or nothing. */
  lemma SubmitterCosts(setup: Setup, s: State, move: Move)
    requires MoveEnabled(setup, s.world, move) && !IsWork(ByOthers(move))
    ensures Potential(Next(setup, s, ByOthers(move))) <= Potential(s) + 19
  {
    var w' := Moved(setup, s.world, move);
    if move.Send? {
      assert w'.log[..|s.world.log|] == s.world.log;
    }
  }

  ghost predicate AllWork(steps: seq<Step>) {
    forall i | 0 <= i < |steps| :: IsWork(steps[i])
  }

  /** Without new requests, only a bounded number of steps is left. */
  lemma {:induction false} WorkIsBounded(setup: Setup, s: State, steps: seq<Step>)
    requires 1 <= setup.maximum && Inv(setup, s) && IsRun(setup, s, steps) && AllWork(steps)
    ensures |steps| + Potential(After(setup, s, steps)) <= Potential(s)
    decreases |steps|
  {
    if steps == [] {
    } else {
      StepCosts(setup, s, steps[0]);
      StepKeepsInv(setup, s, steps[0]);
      WorkIsBounded(setup, Next(setup, s, steps[0]), steps[1..]);
    }
  }

  // ---------------------------------------------------------------- a step is possible

  /** The coordinator is never stuck: unless it has stopped, or waits on an empty channel that can
      still be sent to, it has a step to take, even when the pool cannot grow. */
  lemma CoordinatorIsNeverStuck(setup: Setup, s: State) returns (action: Action)
    requires Placed(setup, s) && !s.control.Stopped?
    requires s.control.Receiving? && s.world.channel == [] ==> !SendersAlive(s)
    ensures Enabled(setup, s, action)
  {
    assert s.pending != [] ==> s.pending[0] in s.pending;
    match s.control {
      case Receiving =>
        if s.world.channel == [] {
          action := Disconnect;
        } else {
          assert EventOk(s.world, s.world.channel[0]);
          assert s.world.channel[0].Requested? ==> Inbox(s)[0] == s.world.channel[0].id;
          action := Receive;
        }
      case Handling(id) =>
        assert Inbox(s)[0] == id;
        action := Handle;
      case Retrying(key, _) => action := DispatchOrSkip(setup, s, key);
      case Readmitting(key) => action := DispatchOrSkip(setup, s, key);
      case Filling(_) => action := DispatchOrEnd(setup, s);
      case Advancing => action := Advance(s.workers, Unavailable);
      case Checking => action := Check(true);
      case PoolDown(_) => action := WriteTerminal;
      case Draining(_) =>
        assert s.world.channel != [] && s.world.channel[0].Requested? ==> Inbox(s)[0] == s.world.channel[0].id;
        action := Drain;
      case Stopped(_) =>
    }
  }

  lemma DispatchOrSkip(setup: Setup, s: State, key: KeyHash) returns (action: Action)
    requires QueueInv(s) && (s.control.Retrying? || s.control.Readmitting?) && s.control.key == key
    ensures Enabled(setup, s, action)
  {
    if Dispatchable(setup, s, key) {
      assert QueueOk(s.world.log, key, s.queues[key]);
      assert s.queues[key][0] in s.queues[key];
      action := Dispatch(key, s.workers, Unavailable);
    } else {
      action := Skip;
    }
  }

  lemma DispatchOrEnd(setup: Setup, s: State) returns (action: Action)
    requires QueueInv(s) && DeliveringInv(s) && s.control.Filling?
    ensures Enabled(setup, s, action)
  {
    if key :| key in s.queues && Dispatchable(setup, s, key) {
      assert QueueOk(s.world.log, key, s.queues[key]);
      assert s.queues[key][0] in s.queues[key];
      action := Dispatch(key, s.workers, Unavailable);
    } else {
      action := EndFilling;
    }
  }

  // ---------------------------------------------------------------- callers that stall

  ghost predicate CanEnd(setup: Setup, operation: Operation, view: Option<Blob>) {
    exists after, result :: setup.legal(operation, view, after, Some(result))
  }

  /** Whatever an execution finds, it may end with a result. That it does end is up to its worker; and for a
      stream, whose worker waits for chunks or for an acknowledgement, up to its caller. */
  ghost predicate MayEnd(setup: Setup) {
    forall operation, view :: CanEnd(setup, operation, view)
  }

  /** The job has its file open, and waits for the caller of its stream. Which requests do so is not part of
      the state: `stalled` is any set of them. */
  predicate StalledJob(job: Job, stalled: set<Id>) {
    job.OperationJob? && job.stage.Opened? && job.id in stalled
  }

  /** A step that the coordinator or a worker can take, without anything from a stalled caller. */
  predicate IsFree(w: World, step: Step, stalled: set<Id>) {
    IsWork(step)
    && (step.ByOthers? && step.move.Conclude? && step.move.job < |w.jobs| ==>
          !StalledJob(w.jobs[step.move.job], stalled))
  }

  /** Nothing moves any more, unless a stalled caller does. */
  ghost predicate OnlyStallsLeft(setup: Setup, s: State, stalled: set<Id>) {
    forall step | IsFree(s.world, step, stalled) :: !CanStep(setup, s, step)
  }

  ghost predicate KeyStalled(w: World, key: KeyHash, stalled: set<Id>) {
    exists j :: 0 <= j < |w.jobs| && StalledJob(w.jobs[j], stalled) && w.jobs[j].key == key
  }

  /** The request is answered, or held up by a stalled caller: its own; or, for an operation in its queue,
      one of the same key, unless the store is at its bound; or, held back by a barrier, any. */
  ghost predicate AnsweredOrHeldUp(setup: Setup, s: State, stalled: set<Id>, i: Id)
    requires i < |s.world.log|
  {
    var entry := s.world.log[i];
    match entry.status
    case Replied(_) => true
    case Running => entry.request.Operate? && i in stalled && KeyStalled(s.world, entry.request.key, stalled)
    case Queued =>
      entry.request.Operate?
      && (KeyStalled(s.world, entry.request.key, stalled) || |s.active| == setup.maximum)
    case Deferred => i in s.pending && s.world.jobs != []
    case _ => false
  }

  /** Every job that is with the workers is stalled, and so is every active key. */
  ghost predicate AllStalled(s: State, stalled: set<Id>) {
    && (forall j | 0 <= j < |s.world.jobs| :: StalledJob(s.world.jobs[j], stalled))
    && (forall key | key in s.active :: KeyStalled(s.world, key, stalled))
  }

  /** A worker whose caller is not stalled goes on: it opens its file, or comes to a result. */
  lemma WorkerGoesOn(setup: Setup, s: State, j: nat, stalled: set<Id>) returns (move: Move)
    requires MayEnd(setup) && RunningInv(s) && j < |s.world.jobs| && !StalledJob(s.world.jobs[j], stalled)
    ensures MoveEnabled(setup, s.world, move) && IsFree(s.world, ByOthers(move), stalled)
    ensures match move
            case Observe(at) => at == j
            case Conclude(at, _, result) => at == j && result.Some?
            case ConcludeMaintenance(at, panicked) => at == j && !panicked
            case _ => false
  {
    var job := s.world.jobs[j];
    assert JobOk(s.world, job);
    match job {
      case OperationJob(_, _, Ready) => move := Observe(j);
      case OperationJob(_, id, Opened(view)) =>
        assert CanEnd(setup, s.world.log[id].request.operation, view);
        var after, result :| setup.legal(s.world.log[id].request.operation, view, after, Some(result));
        move := Conclude(j, after, Some(result));
      case MaintenanceJob(_) => move := ConcludeMaintenance(j, false);
    }
  }

  /** As long as not all jobs are stalled, or something is on its way to the coordinator, or it is in the
      middle of its work, there is a free step. */
  lemma FreeStep(setup: Setup, s: State, stalled: set<Id>) returns (step: Option<Step>)
    requires MayEnd(setup) && Placed(setup, s)
    ensures step.Some? ==> IsFree(s.world, step.value, stalled) && CanStep(setup, s, step.value)
    ensures step.None? ==> s.control.Stopped? || (s.control.Receiving? && s.world.channel == [])
    ensures step.None? ==> forall j | 0 <= j < |s.world.jobs| :: StalledJob(s.world.jobs[j], stalled)
  {
    if j :| 0 <= j < |s.world.jobs| && !StalledJob(s.world.jobs[j], stalled) {
      var move := WorkerGoesOn(setup, s, j, stalled);
      step := Some(ByOthers(move));
    } else if s.control.Stopped? || (s.control.Receiving? && s.world.channel == []) {
      step := None;
    } else {
      var action := CoordinatorIsNeverStuck(setup, s);
      step := Some(ByCoordinator(action));
    }
  }

  lemma {:induction false} CountedJob(jobs: seq<Job>, key: KeyHash) returns (j: nat)
    requires JobsFor(jobs, key) > 0
    ensures j < |jobs| && Serves(jobs[j], key)
  {
    if Serves(jobs[|jobs| - 1], key) {
      j := |jobs| - 1;
    } else {
      j := CountedJob(jobs[..|jobs| - 1], key);
    }
  }

  lemma ActiveIsStalled(s: State, stalled: set<Id>, key: KeyHash)
    requires TokenInv(s) && s.world.channel == [] && key in s.active
    requires forall j | 0 <= j < |s.world.jobs| :: StalledJob(s.world.jobs[j], stalled)
    ensures KeyStalled(s.world, key, stalled) && s.world.jobs != []
  {
    TokenMeansActive(s, key);
    var j := CountedJob(s.world.jobs, key);
  }

  lemma NoMaintenance(s: State, stalled: set<Id>)
    requires TokenInv(s) && s.world.channel == []
    requires forall j | 0 <= j < |s.world.jobs| :: StalledJob(s.world.jobs[j], stalled)
    ensures !s.maintenanceActive
  {
    NoMaintenanceJobs(s.world.jobs);
  }

  lemma {:induction false} NoMaintenanceJobs(jobs: seq<Job>)
    requires forall j | 0 <= j < |jobs| :: jobs[j].OperationJob?
    ensures MaintenanceJobs(jobs) == 0
  {
    if jobs != [] {
      NoMaintenanceJobs(jobs[..|jobs| - 1]);
    }
  }

  lemma QueuedIsHeldUp(setup: Setup, s: State, stalled: set<Id>, i: Id)
    requires QueueInv(s) && PoolInv(setup, s) && NoneStranded(setup, s)
    requires forall key | key in s.active :: KeyStalled(s.world, key, stalled)
    requires i < |s.world.log| && s.world.log[i].status.Queued?
    ensures AnsweredOrHeldUp(setup, s, stalled, i)
  {
    QueuedIsInQueue(s, i);
    var key := s.world.log[i].request.key;
    assert !Dispatchable(setup, s, key);
  }

  lemma RunningIsHeldUp(setup: Setup, s: State, stalled: set<Id>, i: Id)
    requires RunningInv(s) && s.world.channel == []
    requires forall j | 0 <= j < |s.world.jobs| :: StalledJob(s.world.jobs[j], stalled)
    requires i < |s.world.log| && s.world.log[i].status.Running?
    ensures AnsweredOrHeldUp(setup, s, stalled, i)
  {
    assert HasToken(s.world, i);
    var job :| job in s.world.jobs && job.id == i;
    var j :| 0 <= j < |s.world.jobs| && s.world.jobs[j] == job;
    assert JobOk(s.world, s.world.jobs[j]);
  }

  lemma RestIsHeldUp(setup: Setup, s: State, stalled: set<Id>, i: Id)
    requires Placed(setup, s) && TokenInv(s) && PoolInv(setup, s) && ControlInv(setup, s)
    requires s.control.Receiving? && s.world.channel == [] && AllStalled(s, stalled) && i < |s.world.log|
    ensures AnsweredOrHeldUp(setup, s, stalled, i)
  {
    assert Inbox(s) == [];
    match s.world.log[i].status {
      case Queued => QueuedIsHeldUp(setup, s, stalled, i);
      case Running => RunningIsHeldUp(setup, s, stalled, i);
      case Deferred =>
        NoMaintenance(s, stalled);
        var key :| key in s.active;
        ActiveIsStalled(s, stalled, key);
      case _ =>
    }
  }

  /** Where nothing moves any more unless a stalled caller does, all jobs are stalled, and every request is
      answered or held up by one of them. So a slow stream holds up its own key, its place among the
      concurrent operations, and barriers, but nothing else. */
  lemma OnlyStallsHoldUp(setup: Setup, s: State, stalled: set<Id>)
    requires Reachable(setup, s) && MayEnd(setup) && OnlyStallsLeft(setup, s, stalled)
    ensures AllStalled(s, stalled)
    ensures forall i | 0 <= i < |s.world.log| :: AnsweredOrHeldUp(setup, s, stalled, i)
  {
    ReachableInv(setup, s);
    var step := FreeStep(setup, s, stalled);
    assert step.None?;
    if s.control.Stopped? {
      StoppedHoldsNothing(setup, s);
    } else {
      forall key | key in s.active ensures KeyStalled(s.world, key, stalled) {
        ActiveIsStalled(s, stalled, key);
      }
      forall i | 0 <= i < |s.world.log| ensures AnsweredOrHeldUp(setup, s, stalled, i) {
        RestIsHeldUp(setup, s, stalled, i);
      }
    }
  }

  /** As long as a request is neither answered nor held up by a stalled caller, the coordinator or a worker
      has a free step to take, which for an open file is a result. */
  lemma UnansweredMeansWork(setup: Setup, s: State, stalled: set<Id>, i: Id) returns (step: Step)
    requires Reachable(setup, s) && MayEnd(setup)
    requires i < |s.world.log| && !AnsweredOrHeldUp(setup, s, stalled, i)
    ensures IsFree(s.world, step, stalled) && CanStep(setup, s, step)
  {
    if OnlyStallsLeft(setup, s, stalled) {
      OnlyStallsHoldUp(setup, s, stalled);
    }
    step :| IsFree(s.world, step, stalled) && CanStep(setup, s, step);
  }

  lemma WithoutStallsAllAreAnswered(setup: Setup, s: State)
    requires 1 <= setup.maximum && AllStalled(s, {})
    requires forall i | 0 <= i < |s.world.log| :: AnsweredOrHeldUp(setup, s, {}, i)
    ensures AllAnswered(s)
  {
    assert s.world.jobs != [] ==> StalledJob(s.world.jobs[0], {});
    assert forall key :: !KeyStalled(s.world, key, {});
    assert s.active == {};
    forall i | 0 <= i < |s.world.log| ensures s.world.log[i].status.Replied? {
      assert AnsweredOrHeldUp(setup, s, {}, i);
    }
  }

  /** From any reachable state, whatever the scheduling and whichever callers stall: at most `Potential(s)`
      steps of coordinator and workers are left; where no free one is left, every request is answered or
      held up by a stalled caller; and if none stalls, every request is answered. */
  lemma EveryRequestIsAnswered(setup: Setup, s: State, steps: seq<Step>, stalled: set<Id>, t: State)
    requires Reachable(setup, s) && MayEnd(setup) && IsRun(setup, s, steps) && AllWork(steps)
    requires t == After(setup, s, steps)
    ensures |steps| <= Potential(s)
    ensures OnlyStallsLeft(setup, t, stalled) ==>
              forall i | 0 <= i < |t.world.log| :: AnsweredOrHeldUp(setup, t, stalled, i)
    ensures OnlyStallsLeft(setup, t, {}) ==> AllAnswered(t)
  {
    ReachableInv(setup, s);
    WorkIsBounded(setup, s, steps);
    RunStaysReachable(setup, s, steps);
    if OnlyStallsLeft(setup, t, stalled) {
      OnlyStallsHoldUp(setup, t, stalled);
    }
    if OnlyStallsLeft(setup, t, {}) {
      OnlyStallsHoldUp(setup, t, {});
      WithoutStallsAllAreAnswered(setup, t);
    }
  }

  lemma {:induction false} RunStaysReachable(setup: Setup, s: State, steps: seq<Step>)
    requires Reachable(setup, s) && IsRun(setup, s, steps)
    ensures Reachable(setup, After(setup, s, steps))
    decreases |steps|
  {
    if steps == [] {
    } else {
      StepStaysReachable(setup, s, steps[0]);
      RunStaysReachable(setup, Next(setup, s, steps[0]), steps[1..]);
    }
  }

  // ---------------------------------------------------------------- behind a barrier

  function QueuedCount(log: seq<Entry>): nat {
    if log == [] then 0 else QueuedCount(log[..|log| - 1]) + (if log[|log| - 1].status.Queued? then 1 else 0)
  }

  /** The operations that a barrier waits for. */
  function Outstanding(s: State): nat {
    |s.active| + QueuedCount(s.world.log)
  }

  lemma {:induction false} QueuedCountUpdated(log: seq<Entry>, id: Id, entry: Entry)
    requires id < |log|
    ensures QueuedCount(log[id := entry])
            == QueuedCount(log) - (if log[id].status.Queued? then 1 else 0) + (if entry.status.Queued? then 1 else 0)
  {
    var later := log[id := entry];
    if id == |log| - 1 {
      assert later[..|log| - 1] == log[..|log| - 1];
    } else {
      assert later[..|log| - 1] == log[..|log| - 1][id := entry];
      QueuedCountUpdated(log[..|log| - 1], id, entry);
    }
  }

  lemma QueuedCountMarked(log: seq<Entry>, mark: Mark)
    requires mark.Mark? ==> mark.id < |log|
    ensures mark.Unmarked? ==> Marked(log, mark) == log
    ensures mark.Mark? ==>
              var gone, come := log[mark.id].status.Queued?, mark.status.Queued?;
              QueuedCount(Marked(log, mark)) == QueuedCount(log) - (if gone then 1 else 0) + (if come then 1 else 0)
  {
    if mark.Mark? {
      QueuedCountUpdated(log, mark.id, log[mark.id].(status := mark.status));
    }
  }

  lemma {:induction false} CountedEmpty(log: seq<Entry>)
    requires QueuedCount(log) == 0
    ensures forall i | 0 <= i < |log| :: !log[i].status.Queued?
  {
    if log == [] {
    } else {
      CountedEmpty(log[..|log| - 1]);
    }
  }

  /** A flush, maintenance or close is first among what is held back. */
  ghost predicate BarrierFirst(s: State) {
    KnownPending(s) && !s.world.log[s.pending[0]].request.Operate?
  }

  /** Each start of an operation takes exactly one operation from the queues. */
  lemma DispatchTakesOne(setup: Setup, s: State, key: KeyHash, grown: nat, fate: Fate)
    requires QueueInv(s) && Enabled(setup, s, Dispatch(key, grown, fate))
    ensures var t := Dispatched(setup, s, key, grown, fate);
            && QueuedCount(t.world.log) == QueuedCount(s.world.log) - 1
            && Outstanding(t) == Outstanding(s) - (if fate.Unavailable? then 1 else 0)
  {
    assert QueueOk(s.world.log, key, s.queues[key]);
    assert s.queues[key][0] in s.queues[key];
    QueuedCountMarked(s.world.log, Mark(s.queues[key][0], FateStatus(fate)));
  }

  lemma ReceiveTakesOne(setup: Setup, s: State)
    requires TokenInv(s) && RunningInv(s) && Enabled(setup, s, Receive)
    ensures var t := Received(setup, s);
            Outstanding(t) == Outstanding(s) - (if s.world.channel[0].Completed? then 1 else 0)
  {
    var event := s.world.channel[0];
    assert EventOk(s.world, event);
    QueuedCountMarked(s.world.log, ReceiveMark(event));
    if event.Completed? {
      TokenMeansActive(s, event.key);
    }
  }

  lemma MoveKeepsQueued(setup: Setup, s: State, move: Move)
    requires RunningInv(s) && MoveEnabled(setup, s.world, move)
    ensures QueuedCount(Moved(setup, s.world, move).log) == QueuedCount(s.world.log)
  {
    var w, w' := s.world, Moved(setup, s.world, move);
    match move {
      case Send(_) => assert w'.log[..|w.log|] == w.log;
      case Conclude(at, _, _) =>
        assert JobOk(w, w.jobs[at]);
        QueuedCountUpdated(w.log, w.jobs[at].id, w'.log[w.jobs[at].id]);
      case ConcludeMaintenance(at, panicked) =>
        assert JobOk(w, w.jobs[at]);
        if panicked {
          QueuedCountUpdated(w.log, w.jobs[at].id, w'.log[w.jobs[at].id]);
        }
      case _ =>
    }
  }

  lemma AdvanceKeepsOutstanding(setup: Setup, s: State, grown: nat, fate: Fate)
    requires PendingInv(s) && Enabled(setup, s, Advance(grown, fate)) && BarrierFirst(s)
    ensures Outstanding(Advanced(setup, s, grown, fate)) == Outstanding(s)
  {
    var round := RoundOf(s);
    if !round.Stay? {
      assert s.pending[0] in s.pending;
      QueuedCountMarked(s.world.log, Mark(s.pending[0], RoundStatus(round, fate)));
    }
  }

  lemma OthersKeepOutstanding(setup: Setup, s: State, action: Action)
    requires Placed(setup, s) && Enabled(setup, s, action) && BarrierFirst(s)
    requires !action.Dispatch? && !action.Receive?
    ensures Outstanding(Acted(setup, s, action)) <= Outstanding(s)
  {
    match action {
      case Handle =>
        HandleKeepsInbox(setup, s);
        QueuedCountMarked(s.world.log, Mark(s.control.id, HandleStatus(s, s.world.log[s.control.id].request)));
      case EndFilling => QueuedCountMarked(s.world.log, EndFillingMark(s.control.next));
      case Advance(grown, fate) => AdvanceKeepsOutstanding(setup, s, grown, fate);
      case Drain => QueuedCountMarked(s.world.log, DrainMark(s, s.control.ok));
      case _ =>
    }
  }

  /** While a barrier is first in `pending`, what it waits for never grows, and every completion received
      makes it strictly less. */
  lemma BarrierOnlyWaitsLess(setup: Setup, s: State, step: Step)
    requires Inv(setup, s) && CanStep(setup, s, step) && BarrierFirst(s)
    ensures Outstanding(Next(setup, s, step)) <= Outstanding(s)
    ensures step == ByCoordinator(Receive) && s.world.channel[0].Completed? ==>
              Outstanding(Next(setup, s, step)) < Outstanding(s)
  {
    match step {
      case ByOthers(move) => MoveKeepsQueued(setup, s, move);
      case ByCoordinator(Receive) => ReceiveTakesOne(setup, s);
      case ByCoordinator(Dispatch(key, grown, fate)) => DispatchTakesOne(setup, s, key, grown, fate);
      case ByCoordinator(action) => OthersKeepOutstanding(setup, s, action);
    }
  }

  /** Once nothing is left to wait for, and no maintenance is under way, the barrier is released: the
      next round of `advance_pending_if_ready` takes it, or the close that it is comes due. And it is
      not released before. */
  lemma BarrierIsReleased(setup: Setup, s: State)
    requires QueueInv(s) && BarrierFirst(s) && !s.maintenanceActive
    ensures Outstanding(s) == 0 <==> Idle(s)
    ensures s.world.log[s.pending[0]].request.Close? ==> (CloseIsDue(s) <==> Outstanding(s) == 0)
    ensures !s.world.log[s.pending[0]].request.Close? ==> (!RoundOf(s).Stay? <==> Outstanding(s) == 0)
  {
    var log := s.world.log;
    forall key | QueueNonempty(s.queues, key) ensures s.queues[key][0] < |log| && log[s.queues[key][0]].status.Queued? {
      assert QueueOk(log, key, s.queues[key]);
      assert s.queues[key][0] in s.queues[key];
    }
    if Outstanding(s) == 0 {
      CountedEmpty(log);
      assert forall key | key in s.queues :: !QueueNonempty(s.queues, key);
    }
    if Idle(s) {
      forall i | 0 <= i < |log| ensures !log[i].status.Queued? {
        QueuedIsInQueue(s, i);
      }
      EmptyCount(log);
    }
  }

  lemma {:induction false} EmptyCount(log: seq<Entry>)
    requires forall i | 0 <= i < |log| :: !log[i].status.Queued?
    ensures QueuedCount(log) == 0
  {
    if log == [] {
    } else {
      EmptyCount(log[..|log| - 1]);
    }
  }
}
