/** The store's concurrency protocol as a state machine: submitters, workers and the coordinator of
    `src/engine/scheduler.rs`, one atomic step at a time. A request is known by its position in the
    order in which requests were sent (sending happens under the lifecycle lock, so there is one such
    order), and `log` says what has become of each. */
module Protocol {
  import opened Operations
  import opened Results

  type Id = nat

  datatype Request =
    | Operate(key: KeyHash, operation: Operation)
    | Maintain
    | Flush
    | Close

  /** What the sender of a request finds in its reply channel. `Dropped` is a disconnected channel. */
  datatype Reply =
    | Answered(result: OperationResult)
    | Reported
    | Succeeded
    | Refused(error: Error)
    | Dropped

  datatype Status =
    | Waiting             // sent, not yet turned to by the coordinator
    | Deferred            // held back in `pending`
    | Queued              // in the queue of its key
    | Running             // given to the workers
    | Delivering          // completed; the coordinator holds the result
    | Replied(reply: Reply)

  /** What an executed operation found, left and answered; no result if the job panicked. */
  datatype Effect = Effect(before: Option<Blob>, after: Option<Blob>, result: Option<OperationResult>)

  datatype Entry = Entry(request: Request, status: Status, effect: Option<Effect>)

  type Outcome = Option<(Id, OperationResult)>

  /** `CoordinatorEvent`. */
  datatype Event =
    | Requested(id: Id)
    | Completed(key: KeyHash, outcome: Outcome)
    | MaintenanceCompleted(report: Option<Id>)

  /** A job with the workers. An operation first opens its file and later acts on what it found. */
  datatype Stage = Ready | Opened(view: Option<Blob>)

  datatype Job =
    | OperationJob(key: KeyHash, id: Id, stage: Stage)
    | MaintenanceJob(id: Id)

  /** `Failed` is written after the coordinator has panicked. */
  datatype Lifecycle = Open | Closing | Closed | ShutdownFailed | Failed

  type Disk = map<KeyHash, Blob>

  /** What the threads share. */
  datatype World = World(
    log: seq<Entry>,
    handles: nat,               // live store handles
    lifecycle: Lifecycle,
    channel: seq<Event>,        // to the coordinator
    jobs: seq<Job>,             // with the workers
    disk: Disk)

  /** What the coordinator does after `dispatch_if_idle` and `dispatch_available`. */
  datatype Finishing = AfterSubmission | AfterCompletion(key: KeyHash, outcome: Outcome)

  /** Where the coordinator is in `run_scheduler`. */
  datatype Control =
    | Receiving                                  // in `recv`
    | Handling(id: Id)                           // with a request taken from the channel
    | Retrying(key: KeyHash, next: Finishing)    // in `dispatch_if_idle` for that key
    | Filling(next: Finishing)                   // in `dispatch_available`
    | Advancing                                  // in `advance_pending_if_ready`
    | Readmitting(key: KeyHash)                  // there, in `dispatch_if_idle`
    | Checking                                   // at the test for a close that is due
    | PoolDown(ok: bool)                         // the workers are joined
    | Draining(ok: bool)                         // the final lifecycle state is written
    | Stopped(ok: bool)

  datatype State = State(
    world: World,
    queues: map<KeyHash, seq<Id>>,
    active: set<KeyHash>,
    pending: seq<Id>,
    maintenanceActive: bool,
    workers: nat,
    control: Control,
    taken: seq<Id>)             // history: operations in the order they left their queues

  /** The fixed parts of a run: the bound on concurrent operations, the initial files, and what an
      execution of an operation may do. */
  datatype Setup = Setup(
    maximum: nat,
    base: Disk,
    legal: (Operation, Option<Blob>, Option<Blob>, Option<OperationResult>) -> bool)

  function At(disk: Disk, key: KeyHash): Option<Blob> {
    if key in disk then Some(disk[key]) else None
  }

  function Put(disk: Disk, key: KeyHash, file: Option<Blob>): Disk {
    match file
    case None => disk - {key}
    case Some(data) => disk[key := data]
  }

  /** A change of one request's status, if any. */
  datatype Mark = Unmarked | Mark(id: Id, status: Status)

  function Marked(log: seq<Entry>, mark: Mark): seq<Entry>
    requires mark.Mark? ==> mark.id < |log|
  {
    if mark.Unmarked? then log else log[mark.id := log[mark.id].(status := mark.status)]
  }

  // ---------------------------------------------------------------- submitters and workers

  /** A step of a submitter or a worker. A job concludes with a result, or without one by panicking. */
  datatype Move =
    | Send(request: Request)
    | CloneHandle
    | DropHandle
    | Observe(job: nat)
    | Conclude(job: nat, after: Option<Blob>, result: Option<OperationResult>)
    | ConcludeMaintenance(job: nat, panicked: bool)

  /** Under the lifecycle lock: only a close may still be sent to a closing store. */
  predicate Admits(lifecycle: Lifecycle, request: Request) {
    lifecycle.Open? || (lifecycle.Closing? && request.Close?)
  }

  /** `jobs[at]` is an operation with its file open. */
  predicate OpenedJob(w: World, at: nat) {
    && at < |w.jobs| && w.jobs[at].OperationJob? && w.jobs[at].stage.Opened?
    && w.jobs[at].id < |w.log| && w.log[w.jobs[at].id].request.Operate?
  }

  predicate RunningMaintenance(w: World, at: nat) {
    at < |w.jobs| && w.jobs[at].MaintenanceJob? && w.jobs[at].id < |w.log|
  }

  predicate MoveEnabled(setup: Setup, w: World, move: Move) {
    match move
    case Send(request) => w.handles > 0 && Admits(w.lifecycle, request)
    case CloneHandle => w.handles > 0
    case DropHandle => w.handles > 0
    case Observe(at) => at < |w.jobs| && w.jobs[at].OperationJob? && w.jobs[at].stage.Ready?
    case Conclude(at, after, result) =>
      OpenedJob(w, at)
      && setup.legal(w.log[w.jobs[at].id].request.operation, w.jobs[at].stage.view, after, result)
    case ConcludeMaintenance(at, _) => RunningMaintenance(w, at)
  }

  function Without<T>(items: seq<T>, at: nat): seq<T>
    requires at < |items|
  {
    items[..at] + items[at + 1..]
  }

  function Moved(setup: Setup, w: World, move: Move): World
    requires MoveEnabled(setup, w, move)
  {
    match move
    case Send(request) =>
      w.(log := w.log + [Entry(request, Waiting, None)], channel := w.channel + [Requested(|w.log|)])
    case CloneHandle => w.(handles := w.handles + 1)
    case DropHandle => w.(handles := w.handles - 1)
    case Observe(at) =>
      w.(jobs := w.jobs[at := w.jobs[at].(stage := Opened(At(w.disk, w.jobs[at].key)))])
    case Conclude(at, after, result) =>
      var job := w.jobs[at];
      var entry := w.log[job.id].(effect := Some(Effect(job.stage.view, after, result)),
                                  status := if result.None? then Replied(Dropped) else w.log[job.id].status);
      w.(log := w.log[job.id := entry],
         jobs := Without(w.jobs, at),
         channel := w.channel + [Completed(job.key, if result.None? then None else Some((job.id, result.value)))],
         disk := Put(w.disk, job.key, after))
    case ConcludeMaintenance(at, panicked) =>
      var id := w.jobs[at].id;
      w.(log := if panicked then Marked(w.log, Mark(id, Replied(Dropped))) else w.log,
         jobs := Without(w.jobs, at),
         channel := w.channel + [MaintenanceCompleted(if panicked then None else Some(id))])
  }

  // ---------------------------------------------------------------- the coordinator

  /** How handing a job to the pool ends: the job runs, the pool cannot take it (`prepare` or
      `prepare_dispatch` fails), or it is lost on the way (`execute` fails). */
  datatype Fate = Started | Unavailable | Lost

  datatype Action =
    | Receive
    | Handle
    | Dispatch(key: KeyHash, grown: nat, fate: Fate)
    | Skip
    | EndFilling
    | Advance(grown: nat, fate: Fate)
    | Check(ok: bool)
    | WriteTerminal
    | Drain
    | Disconnect

  predicate AllQueuesEmpty(queues: map<KeyHash, seq<Id>>) {
    forall key | key in queues :: queues[key] == []
  }

  predicate Idle(s: State) {
    s.active == {} && AllQueuesEmpty(s.queues)
  }

  predicate QueueNonempty(queues: map<KeyHash, seq<Id>>, key: KeyHash) {
    key in queues && queues[key] != []
  }

  function Push(queues: map<KeyHash, seq<Id>>, key: KeyHash, id: Id): map<KeyHash, seq<Id>> {
    queues[key := (if key in queues then queues[key] else []) + [id]]
  }

  /** An emptied queue of a key that is not active is forgotten. */
  function Forget(queues: map<KeyHash, seq<Id>>, active: set<KeyHash>, key: KeyHash): map<KeyHash, seq<Id>> {
    if key !in active && key in queues && queues[key] == [] then queues - {key} else queues
  }

  /** Whether the pool, with `grown` workers, allows this fate for one more of `required` jobs. */
  predicate PoolAllows(workers: nat, required: nat, grown: nat, fate: Fate) {
    && workers <= grown
    && (grown <= workers || grown <= required)
    && (fate != Unavailable ==> required <= grown)
  }

  /** The key that `dispatch_if_idle` works on; in `dispatch_available` it may be any key. */
  predicate DispatchAt(control: Control, key: KeyHash) {
    match control
    case Retrying(k, _) => k == key
    case Readmitting(k) => k == key
    case Filling(_) => true
    case _ => false
  }

  predicate Dispatchable(setup: Setup, s: State, key: KeyHash) {
    key !in s.active && |s.active| < setup.maximum && QueueNonempty(s.queues, key)
  }

  function AfterDispatch(control: Control): Control {
    match control
    case Retrying(_, next) => Filling(next)
    case Readmitting(_) => Advancing
    case other => other
  }

  /** Some receiver of `completion_sender` clones or of the handles is left to send. */
  predicate SendersAlive(s: State) {
    || s.world.handles > 0 || s.world.jobs != []
    || (exists key | key in s.queues :: s.queues[key] != [])
    || (exists id | id in s.pending ::
          id < |s.world.log| && (s.world.log[id].request.Operate? || s.world.log[id].request.Maintain?))
  }

  predicate KnownPending(s: State) {
    s.pending != [] && s.pending[0] < |s.world.log|
  }

  predicate Enabled(setup: Setup, s: State, action: Action) {
    var w := s.world;
    match action
    case Receive =>
      s.control.Receiving? && w.channel != []
      && (match w.channel[0]
          case Requested(id) => id < |w.log|
          case Completed(_, outcome) => outcome.Some? ==> outcome.value.0 < |w.log|
          case MaintenanceCompleted(report) => report.Some? ==> report.value < |w.log|)
    case Handle => s.control.Handling? && s.control.id < |w.log|
    case Dispatch(key, grown, fate) =>
      DispatchAt(s.control, key) && Dispatchable(setup, s, key) && s.queues[key][0] < |w.log|
      && PoolAllows(s.workers, |s.active| + 1, grown, fate)
    case Skip => (s.control.Retrying? || s.control.Readmitting?) && !Dispatchable(setup, s, s.control.key)
    case EndFilling =>
      s.control.Filling? && (forall key | key in s.queues :: !Dispatchable(setup, s, key))
      && (s.control.next.AfterCompletion? && s.control.next.outcome.Some? ==>
            s.control.next.outcome.value.0 < |w.log|)
    case Advance(grown, fate) =>
      s.control.Advancing? && (s.pending != [] ==> s.pending[0] < |w.log|)
      && PoolAllows(s.workers, 1, grown, fate)
    case Check(_) => s.control.Checking?
    case WriteTerminal => s.control.PoolDown?
    case Drain =>
      s.control.Draining?
      && (s.pending != [] ==> s.pending[0] < |w.log|)
      && (w.channel != [] && w.channel[0].Requested? ==> w.channel[0].id < |w.log|)
    case Disconnect => s.control.Receiving? && w.channel == [] && !SendersAlive(s)
  }

  function CloseReply(ok: bool): Reply {
    if ok then Succeeded else Refused(ShutdownFailure)
  }

  // One event is taken from the channel.

  function ReceiveMark(event: Event): Mark {
    match event
    case Completed(_, Some((id, _))) => Mark(id, Delivering)
    case MaintenanceCompleted(Some(id)) => Mark(id, Replied(Reported))
    case _ => Unmarked
  }

  function Received(setup: Setup, s: State): State
    requires Enabled(setup, s, Receive)
  {
    var event := s.world.channel[0];
    s.(world := s.world.(channel := s.world.channel[1..], log := Marked(s.world.log, ReceiveMark(event))),
       active := if event.Completed? then s.active - {event.key} else s.active,
       maintenanceActive := s.maintenanceActive && !event.MaintenanceCompleted?,
       control := match event
                  case Requested(id) => Handling(id)
                  case Completed(key, outcome) => Retrying(key, AfterCompletion(key, outcome))
                  case MaintenanceCompleted(_) => Advancing)
  }

  // The first part of each arm of the event loop.

  function HandleStatus(s: State, request: Request): Status {
    var lifecycle := s.world.lifecycle;
    if request.Close? then
      (match lifecycle
       case Closed => Replied(Succeeded)
       case ShutdownFailed => Replied(Refused(ShutdownFailure))
       case Failed => Replied(Refused(ShutdownFailure))
       case _ => Deferred)
    else if !lifecycle.Open? then Replied(Refused(StoreClosed))
    else if request.Operate? && !s.maintenanceActive && s.pending == [] then Queued
    else Deferred
  }

  function Handled(setup: Setup, s: State): State
    requires Enabled(setup, s, Handle)
  {
    var w, id := s.world, s.control.id;
    var request := w.log[id].request;
    var status := HandleStatus(s, request);
    s.(world := w.(log := Marked(w.log, Mark(id, status)),
                   lifecycle := if request.Close? && w.lifecycle.Open? then Closing else w.lifecycle),
       pending := if status.Deferred? then s.pending + [id] else s.pending,
       queues := if status.Queued? then Push(s.queues, request.key, id) else s.queues,
       control := if request.Close? || (status.Deferred? && !request.Operate?) then Advancing
                  else if status.Queued? then Retrying(request.key, AfterSubmission)
                  else Receiving)
  }

  // `dispatch_if_idle` once it has found an operation to start.

  function FateStatus(fate: Fate): Status {
    match fate
    case Started => Running
    case Lost => Replied(Dropped)
    case Unavailable => Replied(Refused(WorkerUnavailable))
  }

  function Dispatched(setup: Setup, s: State, key: KeyHash, grown: nat, fate: Fate): State
    requires Enabled(setup, s, Dispatch(key, grown, fate))
  {
    var w, id, queues := s.world, s.queues[key][0], s.queues[key := s.queues[key][1..]];
    s.(world := w.(log := Marked(w.log, Mark(id, FateStatus(fate))),
                   jobs := if fate.Started? then w.jobs + [OperationJob(key, id, Ready)] else w.jobs,
                   channel := if fate.Lost? then w.channel + [Completed(key, None)] else w.channel),
       queues := if fate.Unavailable? then Forget(queues, s.active, key) else queues,
       active := if fate.Unavailable? then s.active else s.active + {key},
       workers := grown,
       control := AfterDispatch(s.control),
       taken := s.taken + [id])
  }

  // The end of `dispatch_available`: a completion's queue is tidied and its result delivered.

  function EndFillingMark(next: Finishing): Mark {
    match next
    case AfterCompletion(_, Some((id, result))) => Mark(id, Replied(Answered(result)))
    case _ => Unmarked
  }

  function EndedFilling(setup: Setup, s: State): State
    requires Enabled(setup, s, EndFilling)
  {
    var next := s.control.next;
    s.(world := s.world.(log := Marked(s.world.log, EndFillingMark(next))),
       queues := if next.AfterCompletion? then Forget(s.queues, s.active, next.key) else s.queues,
       control := if next.AfterCompletion? then Advancing else Checking)
  }

  // One round of `advance_pending_if_ready`.

  datatype Round = Stay | Readmit | AnswerFlush | StartMaintenance

  function RoundOf(s: State): Round
    requires s.pending != [] ==> s.pending[0] < |s.world.log|
  {
    if s.maintenanceActive || s.pending == [] then Stay
    else
      match s.world.log[s.pending[0]].request
      case Operate(_, _) => Readmit
      case Flush => if Idle(s) then AnswerFlush else Stay
      case Maintain => if Idle(s) then StartMaintenance else Stay
      case Close => Stay
  }

  function RoundStatus(round: Round, fate: Fate): Status {
    match round
    case StartMaintenance => FateStatus(fate)
    case AnswerFlush => Replied(Succeeded)
    case _ => Queued
  }

  function Advanced(setup: Setup, s: State, grown: nat, fate: Fate): State
    requires Enabled(setup, s, Advance(grown, fate))
  {
    var round := RoundOf(s);
    if round.Stay? then s.(control := Checking)
    else
      var w, id := s.world, s.pending[0];
      var start, request := round.StartMaintenance?, w.log[id].request;
      s.(world := w.(log := Marked(w.log, Mark(id, RoundStatus(round, fate))),
                     jobs := if start && fate.Started? then w.jobs + [MaintenanceJob(id)] else w.jobs,
                     channel := if start && !fate.Started? then w.channel + [MaintenanceCompleted(None)]
                                else w.channel),
         pending := s.pending[1..],
         queues := if round.Readmit? then Push(s.queues, request.key, id) else s.queues,
         maintenanceActive := start,
         workers := if start then grown else s.workers,
         control := match round
                    case Readmit => Readmitting(request.key)
                    case AnswerFlush => Advancing
                    case _ => Checking)
  }

  // The test for a close that is due, and what follows it.

  predicate FrontIsClose(s: State) {
    KnownPending(s) && s.world.log[s.pending[0]].request.Close?
  }

  predicate CloseIsDue(s: State) {
    FrontIsClose(s) && Idle(s) && !s.maintenanceActive
  }

  /** The final drain turns to pending closes first, and then to the channel. */
  function DrainMark(s: State, ok: bool): Mark
    requires s.world.channel != [] && s.world.channel[0].Requested? ==> s.world.channel[0].id < |s.world.log|
  {
    var w := s.world;
    if FrontIsClose(s) then Mark(s.pending[0], Replied(CloseReply(ok)))
    else if w.channel != [] && w.channel[0].Requested? then
      Mark(w.channel[0].id,
           Replied(if w.log[w.channel[0].id].request.Close? then CloseReply(ok) else Refused(StoreClosed)))
    else Unmarked
  }

  function Drained(setup: Setup, s: State): State
    requires Enabled(setup, s, Drain)
  {
    var w, ok := s.world, s.control.ok;
    var pendingFirst := FrontIsClose(s);
    s.(world := w.(log := Marked(w.log, DrainMark(s, ok)),
                   channel := if !pendingFirst && w.channel != [] then w.channel[1..] else w.channel),
       pending := if pendingFirst then s.pending[1..] else s.pending,
       control := if !pendingFirst && w.channel == [] then Stopped(ok) else s.control)
  }

  function Acted(setup: Setup, s: State, action: Action): State
    requires Enabled(setup, s, action)
  {
    match action
    case Receive => Received(setup, s)
    case Handle => Handled(setup, s)
    case Dispatch(key, grown, fate) => Dispatched(setup, s, key, grown, fate)
    case Skip => s.(control := AfterDispatch(s.control))
    case EndFilling => EndedFilling(setup, s)
    case Advance(grown, fate) => Advanced(setup, s, grown, fate)
    case Check(ok) => if CloseIsDue(s) then s.(workers := 0, control := PoolDown(ok)) else s.(control := Receiving)
    case WriteTerminal =>
      s.(world := s.world.(lifecycle := if s.control.ok then Closed else ShutdownFailed),
         control := Draining(s.control.ok))
    case Drain => Drained(setup, s)
    case Disconnect => s.(world := s.world.(lifecycle := Closed), workers := 0, control := Stopped(true))
  }

  // ---------------------------------------------------------------- runs

  datatype Step = ByOthers(move: Move) | ByCoordinator(action: Action)

  predicate CanStep(setup: Setup, s: State, step: Step) {
    match step
    case ByOthers(move) => MoveEnabled(setup, s.world, move)
    case ByCoordinator(action) => Enabled(setup, s, action)
  }

  function Next(setup: Setup, s: State, step: Step): State
    requires CanStep(setup, s, step)
  {
    match step
    case ByOthers(move) => s.(world := Moved(setup, s.world, move))
    case ByCoordinator(action) => Acted(setup, s, action)
  }

  /** The state after a step, if the step can be taken. */
  function Stepped(setup: Setup, s: State, step: Step): Option<State> {
    if CanStep(setup, s, step) then Some(Next(setup, s, step)) else None
  }

  /** A freshly opened store. */
  function Initial(setup: Setup): State {
    State(World([], 1, Open, [], [], setup.base), map[], {}, [], false, 0, Receiving, [])
  }

  /** `steps` can be taken one after the other from `s`. */
  ghost predicate IsRun(setup: Setup, s: State, steps: seq<Step>)
    decreases |steps|
  {
    steps == [] || (CanStep(setup, s, steps[0]) && IsRun(setup, Next(setup, s, steps[0]), steps[1..]))
  }

  ghost function After(setup: Setup, s: State, steps: seq<Step>): State
    requires IsRun(setup, s, steps)
    decreases |steps|
  {
    if steps == [] then s else After(setup, Next(setup, s, steps[0]), steps[1..])
  }
}
