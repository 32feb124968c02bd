/** What each request is answered, in plain words, and what has caused it. The causes are read off the steps
    of a run: which jobs ended and how, and which could not be started. */
module Causes {
  import opened Barriers
  import opened Endings
  import opened Invariant
  import opened Operations
  import opened Protocol
  import opened Results
  import opened Runs
  import opened StepsPlaces
  import opened StepsTokens

  /** What a run has seen of a request's job: it ended with a result, the clean-up ended, it panicked, it
      could not be started, or it was lost on its way to the pool. */
  datatype Cause = Finished(result: OperationResult) | CleanedUp | Panicked | NotStarted | WasLost

  type Ledger = map<Id, Cause>

  /** `advance_pending_if_ready` is at a clean-up that may start now. */
  predicate StartsMaintenance(s: State) {
    s.pending != [] && s.pending[0] < |s.world.log| && s.world.log[s.pending[0]].request.Maintain?
    && !s.maintenanceActive && s.active == {} && AllQueuesEmpty(s.queues)
  }

  function Refusal(ledger: Ledger, id: Id, fate: Fate): Ledger {
    match fate
    case Started => ledger
    case Unavailable => ledger[id := NotStarted]
    case Lost => ledger[id := WasLost]
  }

  /** A step is entered in the ledger if it is one of those. */
  function Entered(setup: Setup, s: State, ledger: Ledger, step: Step): Ledger
    requires CanStep(setup, s, step)
  {
    match step
    case ByOthers(Conclude(at, _, result)) =>
      ledger[s.world.jobs[at].id := if result.Some? then Finished(result.value) else Panicked]
    case ByOthers(ConcludeMaintenance(at, panicked)) =>
      ledger[s.world.jobs[at].id := if panicked then Panicked else CleanedUp]
    case ByCoordinator(Dispatch(key, _, fate)) => Refusal(ledger, s.queues[key][0], fate)
    case ByCoordinator(Advance(_, fate)) =>
      if StartsMaintenance(s) then Refusal(ledger, s.pending[0], fate) else ledger
    case _ => ledger
  }

  ghost function LedgerAfter(setup: Setup, s: State, ledger: Ledger, steps: seq<Step>): Ledger
    requires IsRun(setup, s, steps)
    decreases |steps|
  {
    if steps == [] then ledger
    else LedgerAfter(setup, Next(setup, s, steps[0]), Entered(setup, s, ledger, steps[0]), steps[1..])
  }

  function CauseOf(ledger: Ledger, id: Id): Option<Cause> {
    if id in ledger then Some(ledger[id]) else None
  }

  // ---------------------------------------------------------------- replies and causes

  /** The replies there are for each kind of request, each with its cause. */
  predicate Caused(request: Request, reply: Reply, cause: Option<Cause>) {
    match request
    case Operate(_, _) =>
      (match reply
       case Answered(result) => cause == Some(Finished(result))
       case Dropped => cause == Some(Panicked) || cause == Some(WasLost)
       case Refused(WorkerUnavailable) => cause == Some(NotStarted)
       case Refused(StoreClosed) => cause == None
       case _ => false)
    case Maintain =>
      (match reply
       case Reported => cause == Some(CleanedUp)
       case Dropped => cause == Some(Panicked) || cause == Some(WasLost)
       case Refused(WorkerUnavailable) => cause == Some(NotStarted)
       case Refused(StoreClosed) => cause == None
       case _ => false)
    case Flush => cause == None && (reply == Succeeded || reply == Refused(StoreClosed))
    case Close => cause == None && (reply == Succeeded || reply == Refused(ShutdownFailure))
  }

  predicate EntryTold(entry: Entry, cause: Option<Cause>) {
    match entry.status
    case Waiting => cause == None
    case Deferred => cause == None
    case Queued => cause == None
    case Replied(reply) => Caused(entry.request, reply, cause)
    case _ => true
  }

  predicate EventTold(event: Event, ledger: Ledger) {
    match event
    case Completed(_, Some((id, result))) => CauseOf(ledger, id) == Some(Finished(result))
    case MaintenanceCompleted(Some(id)) => CauseOf(ledger, id) == Some(CleanedUp)
    case _ => true
  }

  predicate HandTold(control: Control, ledger: Ledger) {
    var hand := OutcomeInHand(control);
    hand.Some? ==> CauseOf(ledger, hand.value.0) == Some(Finished(hand.value.1))
  }

  ghost predicate EntriesTold(log: seq<Entry>, ledger: Ledger) {
    && (forall id | id in ledger :: id < |log|)
    && (forall i | 0 <= i < |log| :: EntryTold(log[i], CauseOf(ledger, i)))
  }

  ghost predicate EventsTold(channel: seq<Event>, ledger: Ledger) {
    forall e | 0 <= e < |channel| :: EventTold(channel[e], ledger)
  }

  ghost predicate JobsOpen(jobs: seq<Job>, ledger: Ledger) {
    forall j | 0 <= j < |jobs| :: jobs[j].id !in ledger
  }

  ghost predicate LedgerInv(s: State, ledger: Ledger) {
    && EntriesTold(s.world.log, ledger) && EventsTold(s.world.channel, ledger)
    && JobsOpen(s.world.jobs, ledger) && HandTold(s.control, ledger)
  }

  // ---------------------------------------------------------------- every step keeps the ledger true

  /** One request is marked and its cause entered; all others stay. */
  lemma MarkIsTold(log: seq<Entry>, later: seq<Entry>, ledger: Ledger, told: Ledger, id: Id)
    requires EntriesTold(log, ledger) && id < |log| && |later| == |log| && later == log[id := later[id]]
    requires told.Keys <= ledger.Keys + {id} && ledger.Keys <= told.Keys
    requires forall other | other in ledger && other != id :: told[other] == ledger[other]
    requires EntryTold(later[id], CauseOf(told, id))
    ensures EntriesTold(later, told)
  {
    forall i | 0 <= i < |later| ensures EntryTold(later[i], CauseOf(told, i)) {
      assert EntryTold(log[i], CauseOf(ledger, i));
      assert i != id ==> CauseOf(told, i) == CauseOf(ledger, i);
    }
  }

  /** What ends a job: its cause is entered, its event sent, and all other jobs and events stay. */
  lemma EndIsTold(s: State, at: nat, ledger: Ledger, cause: Cause, event: Event)
    requires TokenInv(s) && RunningInv(s) && at < |s.world.jobs|
    requires EventsTold(s.world.channel, ledger) && JobsOpen(s.world.jobs, ledger)
    requires EventTold(event, ledger[s.world.jobs[at].id := cause])
    ensures EventsTold(s.world.channel + [event], ledger[s.world.jobs[at].id := cause])
    ensures JobsOpen(Without(s.world.jobs, at), ledger[s.world.jobs[at].id := cause])
  {
    var channel, jobs, id := s.world.channel, s.world.jobs, s.world.jobs[at].id;
    var told := ledger[id := cause];
    forall e | 0 <= e < |channel + [event]| ensures EventTold((channel + [event])[e], told) {
      if e < |channel| {
        assert EventTold(channel[e], ledger);
        JobsAndCompletionsAreApart(s, at, e);
      }
    }
    forall j | 0 <= j < |Without(jobs, at)| ensures Without(jobs, at)[j].id !in told {
      var i := if j < at then j else j + 1;
      assert Without(jobs, at)[j] == jobs[i];
      JobsAreApart(s, at, i);
    }
  }

  lemma HandIsNotAJobs(s: State, at: nat, ledger: Ledger, cause: Cause)
    requires RunningInv(s) && DeliveringInv(s) && at < |s.world.jobs| && HandTold(s.control, ledger)
    ensures HandTold(s.control, ledger[s.world.jobs[at].id := cause])
  {
    assert JobOk(s.world, s.world.jobs[at]);
  }

  lemma SendIsTold(setup: Setup, s: State, ledger: Ledger, request: Request, t: State)
    requires LedgerInv(s, ledger) && MoveEnabled(setup, s.world, Send(request))
    requires t == Next(setup, s, ByOthers(Send(request)))
    ensures LedgerInv(t, ledger)
  {
    var log, later := s.world.log, t.world.log;
    forall i | 0 <= i < |later| ensures EntryTold(later[i], CauseOf(ledger, i)) {
      assert i < |log| ==> EntryTold(log[i], CauseOf(ledger, i));
    }
    forall e | 0 <= e < |t.world.channel| ensures EventTold(t.world.channel[e], ledger) {
      assert e < |s.world.channel| ==> EventTold(s.world.channel[e], ledger);
    }
  }

  lemma ObserveIsTold(setup: Setup, s: State, ledger: Ledger, at: nat, t: State)
    requires LedgerInv(s, ledger) && MoveEnabled(setup, s.world, Observe(at))
    requires t == Next(setup, s, ByOthers(Observe(at)))
    ensures LedgerInv(t, ledger)
  {
    forall j | 0 <= j < |t.world.jobs| ensures t.world.jobs[j].id !in ledger {
      assert t.world.jobs[j].id == s.world.jobs[j].id;
    }
  }

  lemma ConcludeIsTold(setup: Setup, s: State, ledger: Ledger, move: Move, t: State)
    requires TokenInv(s) && RunningInv(s) && DeliveringInv(s) && LedgerInv(s, ledger)
    requires MoveEnabled(setup, s.world, move) && move.Conclude? && t == Next(setup, s, ByOthers(move))
    ensures LedgerInv(t, Entered(setup, s, ledger, ByOthers(move)))
  {
    var at, id := move.job, s.world.jobs[move.job].id;
    var cause := if move.result.Some? then Finished(move.result.value) else Panicked;
    var event := t.world.channel[|s.world.channel|];
    assert JobOk(s.world, s.world.jobs[at]);
    assert t.world.channel == s.world.channel + [event];
    EndIsTold(s, at, ledger, cause, event);
    HandIsNotAJobs(s, at, ledger, cause);
    MarkIsTold(s.world.log, t.world.log, ledger, ledger[id := cause], id);
  }

  lemma ConcludeMaintenanceIsTold(setup: Setup, s: State, ledger: Ledger, move: Move, t: State)
    requires TokenInv(s) && RunningInv(s) && DeliveringInv(s) && LedgerInv(s, ledger)
    requires MoveEnabled(setup, s.world, move) && move.ConcludeMaintenance? && t == Next(setup, s, ByOthers(move))
    ensures LedgerInv(t, Entered(setup, s, ledger, ByOthers(move)))
  {
    var at, id := move.job, s.world.jobs[move.job].id;
    var cause := if move.panicked then Panicked else CleanedUp;
    var event := t.world.channel[|s.world.channel|];
    assert JobOk(s.world, s.world.jobs[at]);
    assert t.world.channel == s.world.channel + [event];
    EndIsTold(s, at, ledger, cause, event);
    HandIsNotAJobs(s, at, ledger, cause);
    MarkIsTold(s.world.log, t.world.log, ledger, ledger[id := cause], id);
  }

  lemma MoveIsTold(setup: Setup, s: State, ledger: Ledger, move: Move, t: State)
    requires TokenInv(s) && RunningInv(s) && DeliveringInv(s) && LedgerInv(s, ledger)
    requires MoveEnabled(setup, s.world, move) && t == Next(setup, s, ByOthers(move))
    ensures LedgerInv(t, Entered(setup, s, ledger, ByOthers(move)))
  {
    match move {
      case Send(request) => SendIsTold(setup, s, ledger, request, t);
      case CloneHandle =>
      case DropHandle =>
      case Observe(at) => ObserveIsTold(setup, s, ledger, at, t);
      case Conclude(_, _, _) => ConcludeIsTold(setup, s, ledger, move, t);
      case ConcludeMaintenance(_, _) => ConcludeMaintenanceIsTold(setup, s, ledger, move, t);
    }
  }

  /** A mark without a new cause. */
  lemma PlainMarkIsTold(log: seq<Entry>, later: seq<Entry>, ledger: Ledger, mark: Mark)
    requires EntriesTold(log, ledger) && (mark.Mark? ==> mark.id < |log|) && later == Marked(log, mark)
    requires mark.Mark? ==> EntryTold(log[mark.id].(status := mark.status), CauseOf(ledger, mark.id))
    ensures EntriesTold(later, ledger)
  {
    if mark.Mark? {
      MarkIsTold(log, later, ledger, ledger, mark.id);
    }
  }

  lemma ReceiveIsTold(setup: Setup, s: State, ledger: Ledger, t: State)
    requires RunningInv(s) && LedgerInv(s, ledger) && Enabled(setup, s, Receive) && t == Received(setup, s)
    ensures LedgerInv(t, ledger)
  {
    var event := s.world.channel[0];
    assert EventOk(s.world, event) && EventTold(event, ledger);
    PlainMarkIsTold(s.world.log, t.world.log, ledger, ReceiveMark(event));
    forall e | 0 <= e < |t.world.channel| ensures EventTold(t.world.channel[e], ledger) {
      assert t.world.channel[e] == s.world.channel[e + 1];
    }
  }

  lemma HandleIsTold(setup: Setup, s: State, ledger: Ledger, t: State)
    requires InboxInv(s) && LedgerInv(s, ledger) && Enabled(setup, s, Handle) && t == Handled(setup, s)
    ensures LedgerInv(t, ledger)
  {
    var id := s.control.id;
    assert Inbox(s)[0] == id;
    assert EntryTold(s.world.log[id], CauseOf(ledger, id));
    PlainMarkIsTold(s.world.log, t.world.log, ledger, Mark(id, HandleStatus(s, s.world.log[id].request)));
  }

  /** A request that leaves its place for the workers, or cannot be started. */
  lemma StartIsTold(log: seq<Entry>, later: seq<Entry>, ledger: Ledger, id: Id, fate: Fate)
    requires EntriesTold(log, ledger) && id < |log| && id !in ledger
    requires log[id].request.Operate? || log[id].request.Maintain?
    requires later == Marked(log, Mark(id, FateStatus(fate)))
    ensures EntriesTold(later, Refusal(ledger, id, fate))
  {
    MarkIsTold(log, later, ledger, Refusal(ledger, id, fate), id);
  }

  /** Events and jobs do not mind a cause for a request that is none of theirs. */
  lemma StartKeepsOthers(s: State, ledger: Ledger, id: Id, fate: Fate)
    requires RunningInv(s) && DeliveringInv(s) && LedgerInv(s, ledger) && id < |s.world.log|
    requires !s.world.log[id].status.Running? && !s.world.log[id].status.Delivering?
    ensures EventsTold(s.world.channel, Refusal(ledger, id, fate))
    ensures JobsOpen(s.world.jobs, Refusal(ledger, id, fate))
    ensures HandTold(s.control, Refusal(ledger, id, fate))
  {
    var told := Refusal(ledger, id, fate);
    forall e | 0 <= e < |s.world.channel| ensures EventTold(s.world.channel[e], told) {
      assert EventOk(s.world, s.world.channel[e]) && EventTold(s.world.channel[e], ledger);
    }
    forall j | 0 <= j < |s.world.jobs| ensures s.world.jobs[j].id !in told {
      assert JobOk(s.world, s.world.jobs[j]);
    }
  }

  lemma EventsAndJobsGrow(channel: seq<Event>, jobs: seq<Job>, ledger: Ledger, event: Event, job: Job)
    requires EventsTold(channel, ledger) && JobsOpen(jobs, ledger)
    ensures EventTold(event, ledger) ==> EventsTold(channel + [event], ledger)
    ensures job.id !in ledger ==> JobsOpen(jobs + [job], ledger)
  {
  }

  lemma DispatchIsTold(setup: Setup, s: State, ledger: Ledger, key: KeyHash, grown: nat, fate: Fate, t: State)
    requires QueueInv(s) && RunningInv(s) && DeliveringInv(s) && LedgerInv(s, ledger)
    requires Enabled(setup, s, Dispatch(key, grown, fate)) && t == Dispatched(setup, s, key, grown, fate)
    ensures LedgerInv(t, Refusal(ledger, s.queues[key][0], fate))
  {
    var id := s.queues[key][0];
    assert QueueOk(s.world.log, key, s.queues[key]);
    assert id in s.queues[key];
    assert EntryTold(s.world.log[id], CauseOf(ledger, id));
    StartIsTold(s.world.log, t.world.log, ledger, id, fate);
    StartKeepsOthers(s, ledger, id, fate);
    EventsAndJobsGrow(s.world.channel, s.world.jobs, Refusal(ledger, id, fate), Completed(key, None),
                      OperationJob(key, id, Ready));
  }

  lemma EndFillingIsTold(setup: Setup, s: State, ledger: Ledger, t: State)
    requires DeliveringInv(s) && LedgerInv(s, ledger) && Enabled(setup, s, EndFilling) && t == EndedFilling(setup, s)
    ensures LedgerInv(t, ledger)
  {
    PlainMarkIsTold(s.world.log, t.world.log, ledger, EndFillingMark(s.control.next));
  }

  lemma FrontIsTold(s: State, ledger: Ledger)
    requires PendingInv(s) && LedgerInv(s, ledger) && s.pending != []
    ensures s.pending[0] < |s.world.log| && s.world.log[s.pending[0]].status.Deferred? && s.pending[0] !in ledger
  {
    assert s.pending[0] in s.pending;
    assert EntryTold(s.world.log[s.pending[0]], CauseOf(ledger, s.pending[0]));
  }

  lemma AdvanceIsTold(setup: Setup, s: State, ledger: Ledger, grown: nat, fate: Fate, t: State)
    requires PendingInv(s) && RunningInv(s) && DeliveringInv(s) && LedgerInv(s, ledger)
    requires Enabled(setup, s, Advance(grown, fate)) && t == Advanced(setup, s, grown, fate)
    ensures LedgerInv(t, Entered(setup, s, ledger, ByCoordinator(Advance(grown, fate))))
  {
    if !RoundOf(s).Stay? {
      var id := s.pending[0];
      FrontIsTold(s, ledger);
      if RoundOf(s).StartMaintenance? {
        StartIsTold(s.world.log, t.world.log, ledger, id, fate);
        StartKeepsOthers(s, ledger, id, fate);
        EventsAndJobsGrow(s.world.channel, s.world.jobs, Refusal(ledger, id, fate), MaintenanceCompleted(None),
                          MaintenanceJob(id));
      } else {
        PlainMarkIsTold(s.world.log, t.world.log, ledger, Mark(id, RoundStatus(RoundOf(s), fate)));
      }
    }
  }

  lemma DrainIsTold(setup: Setup, s: State, ledger: Ledger, t: State)
    requires InboxInv(s) && PendingInv(s) && LedgerInv(s, ledger) && Enabled(setup, s, Drain) && t == Drained(setup, s)
    ensures LedgerInv(t, ledger)
  {
    var mark := DrainMark(s, s.control.ok);
    if FrontIsClose(s) {
      FrontIsTold(s, ledger);
    } else if mark.Mark? {
      assert Inbox(s)[0] == mark.id;
      assert EntryTold(s.world.log[mark.id], CauseOf(ledger, mark.id));
    }
    PlainMarkIsTold(s.world.log, t.world.log, ledger, mark);
    forall e | 0 <= e < |t.world.channel| ensures EventTold(t.world.channel[e], ledger) {
      assert t.world.channel[e] == s.world.channel[e] || t.world.channel[e] == s.world.channel[e + 1];
    }
  }

  lemma ControlIsTold(setup: Setup, s: State, ledger: Ledger, action: Action, t: State)
    requires LedgerInv(s, ledger) && Enabled(setup, s, action) && t == Acted(setup, s, action)
    requires action.Skip? || action.Check? || action.WriteTerminal? || action.Disconnect?
    ensures LedgerInv(t, ledger)
  {
  }

  lemma ActionIsTold(setup: Setup, s: State, ledger: Ledger, action: Action, t: State)
    requires Placed(setup, s) && LedgerInv(s, ledger) && Enabled(setup, s, action) && t == Acted(setup, s, action)
    ensures LedgerInv(t, Entered(setup, s, ledger, ByCoordinator(action)))
  {
    match action {
      case Receive => ReceiveIsTold(setup, s, ledger, t);
      case Handle => HandleIsTold(setup, s, ledger, t);
      case Dispatch(key, grown, fate) => DispatchIsTold(setup, s, ledger, key, grown, fate, t);
      case EndFilling => EndFillingIsTold(setup, s, ledger, t);
      case Advance(grown, fate) => AdvanceIsTold(setup, s, ledger, grown, fate, t);
      case Drain => DrainIsTold(setup, s, ledger, t);
      case _ => ControlIsTold(setup, s, ledger, action, t);
    }
  }

  lemma StepIsTold(setup: Setup, s: State, ledger: Ledger, step: Step, t: State)
    requires Inv(setup, s) && LedgerInv(s, ledger) && CanStep(setup, s, step) && t == Next(setup, s, step)
    ensures LedgerInv(t, Entered(setup, s, ledger, step))
  {
    match step {
      case ByOthers(move) => MoveIsTold(setup, s, ledger, move, t);
      case ByCoordinator(action) => ActionIsTold(setup, s, ledger, action, t);
    }
  }

  lemma {:induction false} RunIsTold(setup: Setup, s: State, ledger: Ledger, steps: seq<Step>)
    requires 1 <= setup.maximum && Inv(setup, s) && LedgerInv(s, ledger) && IsRun(setup, s, steps)
    ensures LedgerInv(After(setup, s, steps), LedgerAfter(setup, s, ledger, steps))
    decreases |steps|
  {
    if steps == [] {
    } else {
      var t := Next(setup, s, steps[0]);
      StepKeepsInv(setup, s, steps[0]);
      StepIsTold(setup, s, ledger, steps[0], t);
      RunIsTold(setup, t, Entered(setup, s, ledger, steps[0]), steps[1..]);
    }
  }

  /** Some run from the freshly opened store leads to `s`, and its causes are these. */
  ghost predicate Tells(setup: Setup, s: State, ledger: Ledger) {
    && 1 <= setup.maximum
    && exists steps :: IsRun(setup, Initial(setup), steps) && After(setup, Initial(setup), steps) == s
                       && LedgerAfter(setup, Initial(setup), map[], steps) == ledger
  }

  lemma InitialIsTold(setup: Setup, s: State)
    requires s == Initial(setup)
    ensures LedgerInv(s, map[])
  {
  }

  lemma TellsTheTruth(setup: Setup, s: State, ledger: Ledger)
    requires Tells(setup, s, ledger)
    ensures Reachable(setup, s) && LedgerInv(s, ledger)
  {
    var steps :| IsRun(setup, Initial(setup), steps) && After(setup, Initial(setup), steps) == s
                 && LedgerAfter(setup, Initial(setup), map[], steps) == ledger;
    InitialInv(setup, Initial(setup));
    InitialIsTold(setup, Initial(setup));
    RunIsTold(setup, Initial(setup), map[], steps);
  }

  // ---------------------------------------------------------------- what each request is answered

  lemma LateExactly(s: State, i: Id)
    requires InboxInv(s) && CloseInv(s) && i < |s.world.log|
    requires s.world.log[i].status.Replied? && !s.world.log[i].request.Close?
    ensures s.world.log[i].status == Replied(Refused(StoreClosed)) <==> AfterClose(s.world.log, i)
  {
    var log := s.world.log;
    assert i < Turned(s);
    if Late(log[i]) {
      var c :| 0 <= c < i && c < |log| && ClosedBy(log[c]);
    }
    if AfterClose(log, i) {
      var c :| 0 <= c < i && c < |log| && log[c].request.Close?;
      assert ClosedBy(log[c]);
    }
  }

  /** Every reachable state has a ledger. */
  lemma SomethingTells(setup: Setup, s: State)
    requires Reachable(setup, s)
    ensures exists ledger :: Tells(setup, s, ledger)
  {
    var steps :| IsRun(setup, Initial(setup), steps) && After(setup, Initial(setup), steps) == s;
    assert Tells(setup, s, LedgerAfter(setup, Initial(setup), map[], steps));
  }

  lemma ReplyIsCaused(setup: Setup, s: State, ledger: Ledger, i: Id)
    requires Tells(setup, s, ledger) && i < |s.world.log| && s.world.log[i].status.Replied?
    ensures Caused(s.world.log[i].request, s.world.log[i].status.reply, CauseOf(ledger, i))
    ensures !s.world.log[i].request.Close? ==>
              (s.world.log[i].status == Replied(Refused(StoreClosed)) <==> AfterClose(s.world.log, i))
  {
    TellsTheTruth(setup, s, ledger);
    ReachableInv(setup, s);
    assert EntryTold(s.world.log[i], CauseOf(ledger, i));
    if !s.world.log[i].request.Close? {
      LateExactly(s, i);
    }
  }

  /** A flush that is answered has succeeded, unless a close was sent before it: then, and only then, the
      store is closed for it. Success comes when every operation, clean-up and flush before it is answered. */
  lemma FlushIsAnswered(setup: Setup, s: State, i: Id)
    requires Reachable(setup, s) && i < |s.world.log|
    requires s.world.log[i].request == Flush && s.world.log[i].status.Replied?
    ensures s.world.log[i].status
            == if AfterClose(s.world.log, i) then Replied(Refused(StoreClosed)) else Replied(Succeeded)
    ensures !AfterClose(s.world.log, i) ==>
              forall b | 0 <= b < i && !s.world.log[b].request.Close? :: s.world.log[b].status.Replied?
  {
    SomethingTells(setup, s);
    var ledger :| Tells(setup, s, ledger);
    ReplyIsCaused(setup, s, ledger, i);
    if !AfterClose(s.world.log, i) {
      forall b | 0 <= b < i && !s.world.log[b].request.Close? ensures s.world.log[b].status.Replied? {
        BarriersAreExact(setup, s, b, i);
      }
    }
  }

  /** A clean-up that is answered: its report, if and only if its job came to its end; a dropped channel, if
      and only if the job panicked or was lost; `WorkerUnavailable`, if and only if it could not be started;
      `StoreClosed`, if and only if a close was sent before it; and nothing else. */
  lemma MaintenanceIsAnswered(setup: Setup, s: State, ledger: Ledger, i: Id)
    requires Tells(setup, s, ledger) && i < |s.world.log|
    requires s.world.log[i].request == Maintain && s.world.log[i].status.Replied?
    ensures var reply, cause := s.world.log[i].status.reply, CauseOf(ledger, i);
            && (reply == Reported <==> cause == Some(CleanedUp))
            && (reply == Dropped <==> cause == Some(Panicked) || cause == Some(WasLost))
            && (reply == Refused(WorkerUnavailable) <==> cause == Some(NotStarted))
            && (reply == Refused(StoreClosed) <==> AfterClose(s.world.log, i))
            && (reply == Reported || reply == Dropped || reply == Refused(WorkerUnavailable)
                || reply == Refused(StoreClosed))
  {
    ReplyIsCaused(setup, s, ledger, i);
  }

  /** An operation that is answered: the very result with which its job ended; and the rest as for a
      clean-up. */
  lemma OperationIsAnswered(setup: Setup, s: State, ledger: Ledger, i: Id)
    requires Tells(setup, s, ledger) && i < |s.world.log|
    requires s.world.log[i].request.Operate? && s.world.log[i].status.Replied?
    ensures var reply, cause := s.world.log[i].status.reply, CauseOf(ledger, i);
            && (forall result :: reply == Answered(result) <==> cause == Some(Finished(result)))
            && (reply == Dropped <==> cause == Some(Panicked) || cause == Some(WasLost))
            && (reply == Refused(WorkerUnavailable) <==> cause == Some(NotStarted))
            && (reply == Refused(StoreClosed) <==> AfterClose(s.world.log, i))
            && (reply.Answered? || reply == Dropped || reply == Refused(WorkerUnavailable)
                || reply == Refused(StoreClosed))
  {
    ReplyIsCaused(setup, s, ledger, i);
  }

  /** A close that is answered has the answer of the final state. */
  lemma CloseIsAnswered(setup: Setup, s: State, i: Id)
    requires Reachable(setup, s) && i < |s.world.log|
    requires s.world.log[i].request == Close && s.world.log[i].status.Replied?
    ensures || (s.world.log[i].status == Replied(Succeeded) && s.world.lifecycle == Closed)
            || (s.world.log[i].status == Replied(Refused(ShutdownFailure)) && s.world.lifecycle == ShutdownFailed)
  {
    ReachableInv(setup, s);
  }

  // ---------------------------------------------------------------- a pool that is open

  /** A job is lost on its way to the pool. */
  predicate Loses(step: Step) {
    step.ByCoordinator? && (step.action.Dispatch? || step.action.Advance?) && step.action.fate.Lost?
  }

  ghost predicate NoneLost(steps: seq<Step>) {
    forall i | 0 <= i < |steps| :: !Loses(steps[i])
  }

  ghost predicate NothingLost(ledger: Ledger) {
    forall id | id in ledger :: ledger[id] != WasLost
  }

  /** With steps like those of the coordinator, whose pool is open, a dropped channel means a panic. */
  lemma {:induction false} NothingWasLost(setup: Setup, s: State, ledger: Ledger, steps: seq<Step>)
    requires IsRun(setup, s, steps) && NoneLost(steps) && NothingLost(ledger)
    ensures NothingLost(LedgerAfter(setup, s, ledger, steps))
    decreases |steps|
  {
    if steps == [] {
    } else {
      EntryLosesNothing(setup, s, ledger, steps[0]);
      forall i | 0 <= i < |steps[1..]| ensures !Loses(steps[1..][i]) {
        assert steps[1..][i] == steps[i + 1];
      }
      NothingWasLost(setup, Next(setup, s, steps[0]), Entered(setup, s, ledger, steps[0]), steps[1..]);
    }
  }

  lemma EntryLosesNothing(setup: Setup, s: State, ledger: Ledger, step: Step)
    requires CanStep(setup, s, step) && !Loses(step) && NothingLost(ledger)
    ensures NothingLost(Entered(setup, s, ledger, step))
  {
  }
}
