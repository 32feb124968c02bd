/** What holds in every reachable state of the protocol, group by group. No single function of the
    coordinator states any of it; the `Steps*.dfy` files show that every step keeps it. */
module Invariant {
  import opened Operations
  import opened Protocol
  import opened Results

  // ---------------------------------------------------------------- where requests are

  function HandIds(control: Control): seq<Id> {
    if control.Handling? then [control.id] else []
  }

  function ChannelIds(channel: seq<Event>): seq<Id> {
    if channel == [] then []
    else (if channel[0].Requested? then [channel[0].id] else []) + ChannelIds(channel[1..])
  }

  /** The requests the coordinator has not turned to yet, in order. */
  function Inbox(s: State): seq<Id> {
    HandIds(s.control) + ChannelIds(s.world.channel)
  }

  /** How many requests the coordinator has turned to. */
  function Turned(s: State): int {
    |s.world.log| - |Inbox(s)|
  }

  /** The channel is first-in first-out: what waits is exactly the tail of the log, in order. */
  ghost predicate InboxInv(s: State) {
    && 0 <= Turned(s)
    && (forall p | 0 <= p < |Inbox(s)| :: Inbox(s)[p] == Turned(s) + p)
    && (forall i | 0 <= i < |s.world.log| :: s.world.log[i].status.Waiting? <==> i >= Turned(s))
  }

  ghost predicate Increasing(ids: seq<Id>) {
    forall p, q | 0 <= p < q < |ids| :: ids[p] < ids[q]
  }

  ghost predicate PendingInv(s: State) {
    && Increasing(s.pending)
    && (forall id | id in s.pending :: id < |s.world.log| && s.world.log[id].status.Deferred?)
    && (forall i | 0 <= i < |s.world.log| && s.world.log[i].status.Deferred? :: i in s.pending)
  }

  ghost predicate OfKey(log: seq<Entry>, id: Id, key: KeyHash) {
    id < |log| && log[id].request.Operate? && log[id].request.key == key
  }

  ghost predicate QueueOk(log: seq<Entry>, key: KeyHash, queue: seq<Id>) {
    && Increasing(queue)
    && (forall id | id in queue :: OfKey(log, id, key) && log[id].status.Queued?)
  }

  ghost predicate InQueue(queues: map<KeyHash, seq<Id>>, entry: Entry, id: Id) {
    && entry.request.Operate?
    && entry.request.key in queues
    && id in queues[entry.request.key]
  }

  ghost predicate QueueInv(s: State) {
    && (forall key | key in s.queues :: QueueOk(s.world.log, key, s.queues[key]))
    && (forall i | 0 <= i < |s.world.log| && s.world.log[i].status.Queued? ::
          InQueue(s.queues, s.world.log[i], i))
  }

  /** A queued request is found in the queue of its key. */
  lemma QueuedIsInQueue(s: State, id: Id)
    requires QueueInv(s) && id < |s.world.log|
    ensures s.world.log[id].status.Queued? ==> InQueue(s.queues, s.world.log[id], id)
  {
  }

  // ---------------------------------------------------------------- order

  /** Answered with `StoreClosed` because the request came too late. */
  predicate Late(entry: Entry) {
    entry.status.Replied? && entry.status.reply.Refused? && entry.status.reply.error.StoreClosed?
  }

  /** How far a request has come: turned away, held back, or let in. */
  function Rank(entry: Entry): int {
    match entry.status
    case Waiting => 0
    case Deferred => 1
    case Queued => 2
    case Running => 2
    case Delivering => 2
    case Replied(_) => if Late(entry) then 0 else 2
  }

  /** The further of two requests came first. */
  ghost predicate OrderInv(s: State) {
    forall i, r | 0 <= i < |s.world.log| && 0 <= r < |s.world.log|
                  && !s.world.log[i].request.Close? && !s.world.log[r].request.Close?
                  && Rank(s.world.log[i]) > Rank(s.world.log[r]) ::
      i < r
  }

  predicate SameKey(a: Entry, b: Entry) {
    a.request.Operate? && b.request.Operate? && a.request.key == b.request.key
  }

  /** The operation has left its queue. */
  predicate Taken(entry: Entry) {
    entry.status.Running? || Finished(entry)
  }

  /** The operation is over: it ran to its end, or it was given up after leaving its queue. */
  predicate Finished(entry: Entry) {
    entry.status.Delivering? || (entry.status.Replied? && !Late(entry))
  }

  /** An operation leaves its queue only when every earlier one of its key is over. */
  ghost predicate FifoInv(s: State) {
    forall i, j | 0 <= i < j < |s.world.log| && SameKey(s.world.log[i], s.world.log[j]) && Taken(s.world.log[j]) ::
      Finished(s.world.log[i])
  }

  /** The history of departures: exactly the operations that left, each once, each key in order. */
  ghost predicate TakenInv(s: State) {
    && (forall p | 0 <= p < |s.taken| ::
          s.taken[p] < |s.world.log| && s.world.log[s.taken[p]].request.Operate? && Taken(s.world.log[s.taken[p]]))
    && (forall i | 0 <= i < |s.world.log| && s.world.log[i].request.Operate? && Taken(s.world.log[i]) :: i in s.taken)
    && (forall p, q | 0 <= p < q < |s.taken| ::
          s.taken[p] != s.taken[q]
          && (SameKey(s.world.log[s.taken[p]], s.world.log[s.taken[q]]) ==> s.taken[p] < s.taken[q]))
  }

  // ---------------------------------------------------------------- tokens

  predicate Serves(job: Job, key: KeyHash) {
    job.OperationJob? && job.key == key
  }

  predicate Completes(event: Event, key: KeyHash) {
    event.Completed? && event.key == key
  }

  function JobsFor(jobs: seq<Job>, key: KeyHash): nat {
    if jobs == [] then 0
    else JobsFor(jobs[..|jobs| - 1], key) + (if Serves(jobs[|jobs| - 1], key) then 1 else 0)
  }

  function CompletionsFor(channel: seq<Event>, key: KeyHash): nat {
    if channel == [] then 0
    else (if Completes(channel[0], key) then 1 else 0) + CompletionsFor(channel[1..], key)
  }

  /** The jobs and completions under way for a key. */
  function Tokens(w: World, key: KeyHash): nat {
    JobsFor(w.jobs, key) + CompletionsFor(w.channel, key)
  }

  function MaintenanceJobs(jobs: seq<Job>): nat {
    if jobs == [] then 0
    else MaintenanceJobs(jobs[..|jobs| - 1]) + (if jobs[|jobs| - 1].MaintenanceJob? then 1 else 0)
  }

  function MaintenanceCompletions(channel: seq<Event>): nat {
    if channel == [] then 0
    else (if channel[0].MaintenanceCompleted? then 1 else 0) + MaintenanceCompletions(channel[1..])
  }

  /** Each active key has exactly one job or completion under way, and no other key has any; the same
      for active maintenance. */
  ghost predicate TokenInv(s: State) {
    && (forall key :: Tokens(s.world, key) == if key in s.active then 1 else 0)
    && MaintenanceJobs(s.world.jobs) + MaintenanceCompletions(s.world.channel) == (if s.maintenanceActive then 1 else 0)
  }

  ghost predicate JobOk(w: World, job: Job) {
    match job
    case OperationJob(key, id, stage) =>
      && OfKey(w.log, id, key) && w.log[id].status.Running? && w.log[id].effect.None?
      && (stage.Opened? ==> stage.view == At(w.disk, key))
    case MaintenanceJob(id) => id < |w.log| && w.log[id].request.Maintain? && w.log[id].status.Running?
  }

  ghost predicate HasResult(log: seq<Entry>, id: Id, result: OperationResult) {
    && id < |log| && log[id].request.Operate?
    && log[id].effect.Some? && log[id].effect.value.result == Some(result)
  }

  ghost predicate EventOk(w: World, event: Event) {
    match event
    case Requested(_) => true
    case Completed(key, outcome) =>
      outcome.Some? ==>
        && OfKey(w.log, outcome.value.0, key) && w.log[outcome.value.0].status.Running?
        && HasResult(w.log, outcome.value.0, outcome.value.1)
    case MaintenanceCompleted(report) =>
      report.Some? ==>
        report.value < |w.log| && w.log[report.value].request.Maintain? && w.log[report.value].status.Running?
  }

  /** The event ends the run of request `id`. */
  predicate Ends(event: Event, id: Id) {
    || (event.Completed? && event.outcome.Some? && event.outcome.value.0 == id)
    || (event.MaintenanceCompleted? && event.report == Some(id))
  }

  /** A running request has its job or its completion under way. */
  ghost predicate HasToken(w: World, id: Id) {
    || (exists job :: job in w.jobs && job.id == id)
    || (exists event :: event in w.channel && Ends(event, id))
  }

  /** Whoever runs is accounted for by what is active. */
  ghost predicate RunsFor(s: State, entry: Entry) {
    match entry.request
    case Operate(key, _) => key in s.active
    case Maintain => s.maintenanceActive
    case _ => false
  }

  ghost predicate RunningInv(s: State) {
    && (forall j | 0 <= j < |s.world.jobs| :: JobOk(s.world, s.world.jobs[j]))
    && (forall e | 0 <= e < |s.world.channel| :: EventOk(s.world, s.world.channel[e]))
    && (forall i | 0 <= i < |s.world.log| && s.world.log[i].status.Running? ::
          HasToken(s.world, i) && RunsFor(s, s.world.log[i]))
  }

  lemma RunningIsActive(s: State, id: Id)
    requires RunningInv(s) && id < |s.world.log|
    ensures s.world.log[id].status.Running? ==> RunsFor(s, s.world.log[id])
  {
  }

  function OutcomeInHand(control: Control): Outcome {
    match control
    case Retrying(_, AfterCompletion(_, outcome)) => outcome
    case Filling(AfterCompletion(_, outcome)) => outcome
    case _ => None
  }

  /** The result in the coordinator's hand is the only one being delivered. */
  ghost predicate DeliveringInv(s: State) {
    var hand := OutcomeInHand(s.control);
    && (hand.Some? ==>
          HasResult(s.world.log, hand.value.0, hand.value.1) && s.world.log[hand.value.0].status.Delivering?)
    && (forall i | 0 <= i < |s.world.log| && s.world.log[i].status.Delivering? ::
          hand.Some? && hand.value.0 == i)
  }

  /** The pool has a worker for every outstanding job, and never more than its capacity. */
  ghost predicate PoolInv(setup: Setup, s: State) {
    && |s.active| <= s.workers <= setup.maximum
    && (MaintenanceJobs(s.world.jobs) > 0 ==> 1 <= s.workers)
  }

  // ---------------------------------------------------------------- closing

  /** A close that the coordinator has turned to. */
  predicate ClosedBy(entry: Entry) {
    entry.request.Close? && entry.status != Waiting
  }

  ghost predicate CloseReceived(log: seq<Entry>, before: nat) {
    exists c :: 0 <= c < before && c < |log| && ClosedBy(log[c])
  }

  ghost predicate CloseInv(s: State) {
    var log := s.world.log;
    && (forall c, i | 0 <= c < i < |log| && ClosedBy(log[c]) && !log[i].request.Close? ::
          log[i].status.Waiting? || Late(log[i]))
    && (forall i | 0 <= i < |log| && Late(log[i]) :: !log[i].request.Close? && CloseReceived(log, i))
    && (!s.control.Stopped? ==> (s.world.lifecycle.Open? <==> !CloseReceived(log, |log|)))
    && (forall c | 0 <= c < |log| && log[c].request.Close? ::
          log[c].status.Waiting? || log[c].status.Deferred?
          || ((s.control.Draining? || s.control.Stopped?) && log[c].status == Replied(CloseReply(s.control.ok))))
  }

  // ---------------------------------------------------------------- where the coordinator is

  /** Unless the store is at its bound, every queue that holds something belongs to an active key. */
  ghost predicate NoneStranded(setup: Setup, s: State) {
    forall key | key in s.queues :: !Dispatchable(setup, s, key)
  }

  /** Queues of keys with nothing to do are forgotten. */
  ghost predicate NoneKept(s: State) {
    forall key | key in s.queues :: s.queues[key] != [] || key in s.active
  }

  ghost predicate NoneKeptBut(s: State, but: KeyHash) {
    forall key | key in s.queues && key != but :: s.queues[key] != [] || key in s.active
  }

  /** Whatever is held back waits for something that is under way. */
  ghost predicate HeldBackForAReason(s: State) {
    s.pending != [] ==> s.active != {} || s.maintenanceActive
  }

  ghost predicate FrontIs(s: State, close: bool) {
    && KnownPending(s)
    && !s.world.log[s.pending[0]].request.Operate?
    && (s.world.log[s.pending[0]].request.Close? <==> close)
  }

  ghost predicate WhileFinishing(s: State, next: Finishing) {
    && !s.maintenanceActive
    && (match next
        case AfterSubmission => s.pending == [] && NoneKept(s)
        case AfterCompletion(key, _) => NoneKeptBut(s, key))
  }

  ghost predicate ControlInv(setup: Setup, s: State) {
    match s.control
    case Receiving => NoneStranded(setup, s) && NoneKept(s) && HeldBackForAReason(s)
    case Handling(_) => NoneStranded(setup, s) && NoneKept(s) && HeldBackForAReason(s)
    case Retrying(_, next) => WhileFinishing(s, next)
    case Filling(next) => WhileFinishing(s, next)
    case Advancing => NoneStranded(setup, s) && NoneKept(s)
    case Readmitting(key) =>
      && !s.maintenanceActive && NoneKept(s)
      && (forall other | other in s.queues && other != key :: !Dispatchable(setup, s, other))
      && (Dispatchable(setup, s, key) ==> |s.queues[key]| == 1)
    case Checking =>
      && NoneStranded(setup, s) && NoneKept(s)
      && (s.maintenanceActive || s.pending == [] || FrontIs(s, true) || (FrontIs(s, false) && !Idle(s)))
    case PoolDown(_) => s.active == {} && s.queues == map[] && !s.maintenanceActive && FrontIs(s, true)
    case Draining(_) =>
      s.active == {} && s.queues == map[] && !s.maintenanceActive && (s.pending == [] || FrontIs(s, true))
    case Stopped(_) =>
      && s.active == {} && s.queues == map[] && !s.maintenanceActive
      && s.pending == [] && s.world.channel == [] && s.world.jobs == []
  }

  /** Maintenance has the store to itself. */
  ghost predicate MaintenanceInv(s: State) {
    s.maintenanceActive ==> Idle(s)
  }

  ghost predicate LifecycleInv(s: State) {
    match s.control
    case Draining(ok) => s.world.lifecycle == if ok then Closed else ShutdownFailed
    case Stopped(ok) => s.world.lifecycle == if ok then Closed else ShutdownFailed
    case PoolDown(_) => s.world.lifecycle.Closing?
    case _ => s.world.lifecycle.Open? || s.world.lifecycle.Closing?
  }

  // ---------------------------------------------------------------- the files

  /** The plain store: the recorded effects of the first `count` requests, applied one after the other,
      in the order in which the requests were sent. */
  function Replay(base: Disk, log: seq<Entry>, count: nat): Disk
    requires count <= |log|
  {
    if count == 0 then base
    else
      var before, entry := Replay(base, log, count - 1), log[count - 1];
      if entry.request.Operate? && entry.effect.Some?
      then Put(before, entry.request.key, entry.effect.value.after)
      else before
  }

  /** The effect is one the operation may have on the file it would find in the plain store. */
  ghost predicate EffectOk(setup: Setup, log: seq<Entry>, i: nat)
    requires i < |log| && log[i].effect.Some?
  {
    var request, effect := log[i].request, log[i].effect.value;
    && request.Operate?
    && setup.legal(request.operation, effect.before, effect.after, effect.result)
    && effect.before == At(Replay(setup.base, log, i), request.key)
  }

  /** Effects and replies tell the same story. */
  ghost predicate EffectMatches(entry: Entry) {
    match entry.status
    case Running => entry.effect.Some? ==> entry.effect.value.result.Some?
    case Delivering => entry.effect.Some?
    case Replied(Answered(result)) => entry.effect.Some? && entry.effect.value.result == Some(result)
    case Replied(Dropped) => entry.effect.Some? ==> entry.effect.value.result == None
    case _ => entry.effect.None?
  }

  ghost predicate EffectInv(s: State) {
    forall i | 0 <= i < |s.world.log| :: EffectMatches(s.world.log[i])
  }

  ghost predicate ReplayInv(setup: Setup, s: State) {
    && s.world.disk == Replay(setup.base, s.world.log, |s.world.log|)
    && (forall i | 0 <= i < |s.world.log| && s.world.log[i].effect.Some? :: EffectOk(setup, s.world.log, i))
  }

  ghost predicate Inv(setup: Setup, s: State) {
    && InboxInv(s) && PendingInv(s) && QueueInv(s)
    && OrderInv(s) && FifoInv(s) && TakenInv(s)
    && TokenInv(s) && RunningInv(s) && DeliveringInv(s) && PoolInv(setup, s)
    && CloseInv(s) && ControlInv(setup, s) && MaintenanceInv(s) && LifecycleInv(s)
    && EffectInv(s) && ReplayInv(setup, s)
  }
}
