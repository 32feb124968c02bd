/** The coordinator thread of `src/engine/scheduler.rs`, as it runs: its own fields are updated in place,
    what the threads share is read and written through `world`, and other threads may step in wherever
    it can notice. Every method is proved to take exactly the machine steps of Protocol.dfy. */
module Coordination {
  import opened Causes
  import opened Endings
  import opened Invariant
  import opened Operations
  import opened Progress
  import opened Protocol
  import opened Results
  import opened Runs
  import opened StepsControl
  import opened StepsForward
  import opened StepsPlaces
  import opened Workers

  /** Whatever the coordinator holds refers to a request that was sent. */
  lemma IdsAreKnown(setup: Setup, s: State)
    requires Reachable(setup, s)
    ensures s.control.Handling? ==> s.control.id < |s.world.log|
    ensures s.pending != [] ==> s.pending[0] < |s.world.log|
    ensures forall key | QueueNonempty(s.queues, key) :: s.queues[key][0] < |s.world.log|
    ensures s.control.Filling? && s.control.next.AfterCompletion? && s.control.next.outcome.Some? ==>
              s.control.next.outcome.value.0 < |s.world.log|
    ensures s.world.channel != [] ==>
              match s.world.channel[0]
              case Requested(id) => id < |s.world.log|
              case Completed(_, outcome) => outcome.Some? ==> outcome.value.0 < |s.world.log|
              case MaintenanceCompleted(report) => report.Some? ==> report.value < |s.world.log|
  {
    ReachableInv(setup, s);
    KnownIds(setup, s);
  }

  lemma KnownIds(setup: Setup, s: State)
    requires Placed(setup, s)
    ensures s.control.Handling? ==> s.control.id < |s.world.log|
    ensures s.pending != [] ==> s.pending[0] < |s.world.log|
    ensures forall key | QueueNonempty(s.queues, key) :: s.queues[key][0] < |s.world.log|
    ensures s.control.Filling? && s.control.next.AfterCompletion? && s.control.next.outcome.Some? ==>
              s.control.next.outcome.value.0 < |s.world.log|
    ensures s.world.channel != [] ==>
              match s.world.channel[0]
              case Requested(id) => id < |s.world.log|
              case Completed(_, outcome) => outcome.Some? ==> outcome.value.0 < |s.world.log|
              case MaintenanceCompleted(report) => report.Some? ==> report.value < |s.world.log|
  {
    assert s.pending != [] ==> s.pending[0] in s.pending;
    assert s.control.Handling? ==> Inbox(s)[0] == s.control.id;
    forall key | QueueNonempty(s.queues, key) ensures s.queues[key][0] < |s.world.log| {
      assert QueueOk(s.world.log, key, s.queues[key]);
      assert s.queues[key][0] in s.queues[key];
    }
    if s.world.channel != [] {
      assert EventOk(s.world, s.world.channel[0]);
      var hand := HandIds(s.control);
      assert s.world.channel[0].Requested? ==> Inbox(s)[|hand|] == s.world.channel[0].id;
    }
  }

  /** What steps of other threads leave alone. */
  ghost predicate Kept(s: State, t: State) {
    && t == s.(world := t.world)
    && t.world.lifecycle == s.world.lifecycle
    && |s.world.log| <= |t.world.log|
    && (forall i | 0 <= i < |s.world.log| :: t.world.log[i].request == s.world.log[i].request)
    && QueuedCount(t.world.log) == QueuedCount(s.world.log)
    && (s.control.Draining? ==> t.world.channel == s.world.channel)
  }

  lemma KeptOn(s: State, t: State, u: State)
    requires Kept(s, t) && Kept(t, u)
    ensures Kept(s, u)
  {
  }

  lemma OthersKeep(setup: Setup, s: State, move: Move)
    requires Reachable(setup, s) && MoveEnabled(setup, s.world, move)
    ensures Kept(s, Next(setup, s, ByOthers(move)))
    ensures Potential(Next(setup, s, ByOthers(move))) <= Potential(s) + 19
  {
    ReachableInv(setup, s);
    MoveKeepsQueued(setup, s, move);
    NothingReachesTheDrain(setup, s, move);
    MoveIsForward(setup, s, move);
    if IsWork(ByOthers(move)) {
      MoveCosts(setup, s, move);
    } else {
      SubmitterCosts(setup, s, move);
    }
  }

  /** Each of the coordinator's steps lowers what is left to do. */
  lemma ActionLowers(setup: Setup, s: State, action: Action)
    requires 1 <= setup.maximum && CanStep(setup, s, ByCoordinator(action))
    requires exists steps :: IsRun(setup, Initial(setup), steps) && After(setup, Initial(setup), steps) == s
    ensures Potential(Next(setup, s, ByCoordinator(action))) < Potential(s)
  {
    assert Reachable(setup, s);
    ReachableInv(setup, s);
    ActionCosts(setup, s, Acted(setup, s, action), action);
  }

  lemma NothingReachesTheDrain(setup: Setup, s: State, move: Move)
    requires TokenInv(s) && ControlInv(setup, s) && LifecycleInv(s) && MoveEnabled(setup, s.world, move)
    ensures s.control.Draining? ==> Moved(setup, s.world, move).channel == s.world.channel
  {
    if s.control.Draining? {
      PoolMayGoDown(s);
    }
  }

  /** What `dispatch_if_idle` has done once the pool has decided. */
  ghost predicate DispatchDone(setup: Setup, s: State, t: State, key: KeyHash, fate: Fate) {
    && DispatchAt(s.control, key) && Dispatchable(setup, s, key) && s.queues[key][0] < |s.world.log|
    && PoolAllows(s.workers, |s.active| + 1, t.workers, fate)
    && var id, queues := s.queues[key][0], s.queues[key := s.queues[key][1..]];
       && t.world == s.world.(
            log := Marked(s.world.log, Mark(id, FateStatus(fate))),
            jobs := if fate.Started? then s.world.jobs + [OperationJob(key, id, Ready)] else s.world.jobs,
            channel := if fate.Lost? then s.world.channel + [Completed(key, None)] else s.world.channel)
       && t.queues == (if fate.Unavailable? then Forget(queues, s.active, key) else queues)
       && t.active == (if fate.Unavailable? then s.active else s.active + {key})
       && t.pending == s.pending && t.maintenanceActive == s.maintenanceActive
  }

  lemma DispatchSteps(setup: Setup, s: State, t: State, key: KeyHash, fate: Fate)
    requires DispatchDone(setup, s, t, key, fate)
    ensures var next := Stepped(setup, s, ByCoordinator(Dispatch(key, t.workers, fate)));
            next.Some? && next.value == t.(control := next.value.control, taken := next.value.taken)
  {
  }

  /** A round of `advance_pending_if_ready` that finds nothing to do. */
  lemma AdvanceStays(setup: Setup, s: State)
    requires s.control.Advancing? && (s.pending != [] ==> s.pending[0] < |s.world.log|) && RoundOf(s).Stay?
    ensures Stepped(setup, s, ByCoordinator(Advance(s.workers, Unavailable))) == Some(s.(control := Checking))
  {
  }

  /** A round that takes the first of what is held back. */
  lemma AdvanceSteps(setup: Setup, s: State, t: State, fate: Fate)
    requires s.control.Advancing? && s.pending != [] && s.pending[0] < |s.world.log| && !RoundOf(s).Stay?
    requires PoolAllows(s.workers, 1, t.workers, fate)
    requires var id, start := s.pending[0], RoundOf(s).StartMaintenance?;
             && t.world == s.world.(
                  log := Marked(s.world.log, Mark(id, RoundStatus(RoundOf(s), fate))),
                  jobs := if start && fate.Started? then s.world.jobs + [MaintenanceJob(id)] else s.world.jobs,
                  channel := if start && !fate.Started? then s.world.channel + [MaintenanceCompleted(None)]
                             else s.world.channel)
             && t.queues == (if RoundOf(s).Readmit? then Push(s.queues, s.world.log[id].request.key, id) else s.queues)
             && t.active == s.active && t.pending == s.pending[1..] && t.maintenanceActive == start
             && (!start ==> t.workers == s.workers)
    ensures var next := Stepped(setup, s, ByCoordinator(Advance(t.workers, fate)));
            next.Some? && next.value == t.(control := next.value.control, taken := next.value.taken)
            && next.value.control == match RoundOf(s)
                                     case Readmit => Readmitting(s.world.log[s.pending[0]].request.key)
                                     case AnswerFlush => Advancing
                                     case _ => Checking
  {
  }

  /** What the first part of a request's arm has done. */
  ghost predicate HandleDone(s: State, t: State, id: Id, status: Status) {
    && s.control == Handling(id) && id < |s.world.log| && status == HandleStatus(s, s.world.log[id].request)
    && var request, w := s.world.log[id].request, s.world;
       t == s.(world := w.(log := Marked(w.log, Mark(id, status)),
                           lifecycle := if request.Close? && w.lifecycle.Open? then Closing else w.lifecycle),
               pending := if status.Deferred? then s.pending + [id] else s.pending,
               queues := if status.Queued? then Push(s.queues, request.key, id) else s.queues)
  }

  lemma HandleSteps(setup: Setup, s: State, t: State, id: Id, status: Status)
    requires HandleDone(s, t, id, status)
    ensures var next := Stepped(setup, s, ByCoordinator(Handle));
            next.Some? && next.value == t.(control := next.value.control)
  {
  }

  /** The end of a completion's arm before anything held back advances. */
  lemma CompletionSteps(setup: Setup, s: State, t: State, key: KeyHash, outcome: Outcome)
    requires s.control == Filling(AfterCompletion(key, outcome)) && (outcome.Some? ==> outcome.value.0 < |s.world.log|)
    requires forall other | other in s.queues :: !Dispatchable(setup, s, other)
    requires t == s.(world := s.world.(log := Marked(s.world.log, EndFillingMark(s.control.next))),
                     queues := Forget(s.queues, s.active, key))
    ensures Stepped(setup, s, ByCoordinator(EndFilling)) == Some(t.(control := Advancing))
  {
  }

  /** Nothing but closes is held back when the store comes down. */
  lemma OnlyClosesWait(setup: Setup, s: State)
    requires Reachable(setup, s) && s.control.Draining? && !FrontIsClose(s)
    ensures s.pending == []
  {
    ReachableInv(setup, s);
  }

  /** A step of the final drain of the channel. */
  lemma DrainSkips(setup: Setup, s: State, t: State)
    requires s.control.Draining? && s.pending == [] && s.world.channel != [] && !s.world.channel[0].Requested?
    requires t == s.(world := s.world.(channel := s.world.channel[1..]))
    ensures Stepped(setup, s, ByCoordinator(Drain)) == Some(t)
  {
  }

  lemma DrainSteps(setup: Setup, s: State, t: State, id: Id)
    requires s.control.Draining? && s.pending == [] && s.world.channel != []
    requires s.world.channel[0].Requested? && s.world.channel[0].id == id < |s.world.log|
    requires var reply := if s.world.log[id].request.Close? then CloseReply(s.control.ok) else Refused(StoreClosed);
             t == s.(world := s.world.(log := Marked(s.world.log, Mark(id, Replied(reply))),
                                       channel := s.world.channel[1..]))
    ensures Stepped(setup, s, ByCoordinator(Drain)) == Some(t)
  {
  }

  lemma RoundTakesOne(setup: Setup, s: State, t: State, key: KeyHash, action: Action)
    requires Reachable(setup, s) && s.control.Filling?
    requires action == Skip || (action.Dispatch? && action.key == key)
    requires Stepped(setup, s, ByCoordinator(action)) == Some(t)
    ensures QueuedCount(t.world.log) < QueuedCount(s.world.log) && t.control == s.control
  {
    ReachableInv(setup, s);
    DispatchTakesOne(setup, s, key, action.grown, action.fate);
  }

  /** The pool is down, or about to be, for good. */
  predicate Down(control: Control) {
    control.PoolDown? || control.Draining? || control.Stopped?
  }

  /** What `recv` finds. */
  datatype Reception = Got(event: Event) | NothingYet | Disconnected

  lemma EventIsInHand(setup: Setup, s: State, t: State, event: Event)
    requires s.world.channel != [] && event == s.world.channel[0]
    requires Stepped(setup, s, ByCoordinator(Receive)) == Some(t)
    ensures match event
            case Requested(id) => t.control == Handling(id)
            case Completed(key, outcome) => t.control == Retrying(key, AfterCompletion(key, outcome))
            case MaintenanceCompleted(_) => t.control.Advancing?
  {
  }

  ghost predicate HasClose(log: seq<Entry>) {
    exists c :: 0 <= c < |log| && log[c].request.Close?
  }

  /** A store that comes down because its last handle is gone was never closed. */
  lemma NobodyClosed(setup: Setup, s: State)
    requires Reachable(setup, s) && Enabled(setup, s, Disconnect)
    ensures !HasClose(s.world.log)
  {
    ReachableInv(setup, s);
    DisconnectsExactlyWhenDrained(setup, s);
  }

  /** What a close is answered, and the final state, by how the coordinator came down. */
  lemma ClosesEnd(setup: Setup, s: State)
    requires Reachable(setup, s) && s.control.Stopped?
    ensures s.control.ok ==>
              s.world.lifecycle == Closed
              && forall c | 0 <= c < |s.world.log| && s.world.log[c].request.Close? ::
                   s.world.log[c].status == Replied(Succeeded)
    ensures !s.control.ok ==>
              s.world.lifecycle == ShutdownFailed
              && forall c | 0 <= c < |s.world.log| && s.world.log[c].request.Close? ::
                   s.world.log[c].status == Replied(Refused(ShutdownFailure))
  {
    CloseLosesNothing(setup, s);
  }

  /** How a turn of the event loop ends. */
  datatype Loop = GoesOn | Waits | Returns

  lemma AtTheEnd(setup: Setup, s: State)
    requires Reachable(setup, s)
    ensures s.control.Stopped? ==> HoldsNothing(s) && s.world.channel == [] && AllAnswered(s)
    ensures s.control.Receiving? && s.world.channel == [] && s.world.jobs == [] ==> HoldsNothing(s) && AllAnswered(s)
  {
    if s.control.Stopped? {
      CloseLosesNothing(setup, s);
    }
    if s.control.Receiving? && s.world.channel == [] && s.world.jobs == [] {
      IdleStoreHoldsNothing(setup, s);
    }
  }

  class Coordinator {
    const setup: Setup
    const pool: WorkerPool
    var world: World
    var queues: map<KeyHash, seq<Id>>
    var active: set<KeyHash>
    var pending: seq<Id>
    var maintenanceActive: bool
    ghost var control: Control
    ghost var taken: seq<Id>
    ghost var steps: seq<Step>   // history: the machine steps so far
    var script: seq<Move>        // what other threads are still going to try
    ghost var budget: nat        // a bound on what is left to do

    ghost function Now(): State
      reads this, pool
    {
      State(world, queues, active, pending, maintenanceActive, |pool.handles|, control, taken)
    }

    /** The steps so far lead from the freshly opened store to `s`; and what is left to do there, with
        whatever the other threads may add, is within the budget. */
    ghost predicate LeadsTo(s: State)
      reads this
    {
      && 1 <= setup.maximum && IsRun(setup, Initial(setup), steps) && After(setup, Initial(setup), steps) == s
      && Potential(s) + 20 * |script| <= budget
    }

    ghost predicate Valid()
      reads this, pool
    {
      && pool.capacity == setup.maximum && pool.Valid()
      && LeadsTo(Now())
      && (pool.open || Down(control)) && NoneLost(steps)
    }

    /** Since then, only steps have been added, and each has been paid for. */
    ghost predicate Since(earlier: seq<Step>, before: nat)
      reads this
    {
      earlier <= steps && budget + |steps| <= before + |earlier|
    }

    /** The step that has just been taken, from the state `before` it, is recorded. */
    ghost method Record(before: State, action: Action)
      requires pool.capacity == setup.maximum && pool.Valid() && LeadsTo(before)
      requires var next := Stepped(setup, before, ByCoordinator(action));
               next.Some? && Now().(control := next.value.control, taken := next.value.taken) == next.value
               && (pool.open || Down(next.value.control))
      requires NoneLost(steps) && !Loses(ByCoordinator(action))
      modifies this`control, this`taken, this`steps, this`budget
      ensures Valid() && steps == old(steps) + [ByCoordinator(action)] && budget == old(budget) - 1
      ensures Stepped(setup, before, ByCoordinator(action)) == Some(Now())
    {
      var step := ByCoordinator(action);
      RunsCompose(setup, Initial(setup), steps, step);
      ActionLowers(setup, before, action);
      var next := Next(setup, before, step);
      control, taken, steps, budget := next.control, next.taken, steps + [step], budget - 1;
    }

    lemma Reached()
      requires Valid()
      ensures Reachable(setup, Now())
    {
    }

    constructor (setup: Setup, script: seq<Move>, panicking: set<nat>)
      requires 1 <= setup.maximum
      ensures Valid() && this.setup == setup && this.script == script && fresh(pool) && pool.panicking == panicking
      ensures Now() == Initial(setup) && steps == []
    {
      this.setup, this.script := setup, script;
      pool := new WorkerPool(setup.maximum, panicking);
      world := World([], 1, Open, [], [], setup.base);
      queues, active, pending, maintenanceActive := map[], {}, [], false;
      control, taken, steps, budget := Receiving, [], [], Potential(Initial(setup)) + 20 * |script|;
    }

    // -------------------------------------------------------------- the other threads

    /** Another thread tries its next step; nothing happens if it cannot take it. */
    method Other()
      requires Valid() && script != []
      modifies this`world, this`steps, this`budget, this`script
      ensures Valid() && Since(old(steps), old(budget)) && budget < old(budget)
      ensures Kept(old(Now()), Now()) && script == old(script)[1..]
    {
      var move := script[0];
      script, budget := script[1..], budget - 1;
      if MoveEnabled(setup, world, move) {
        ghost var before := Now();
        OthersKeep(setup, before, move);
        world := Moved(setup, world, move);
        RunsCompose(setup, Initial(setup), steps, ByOthers(move));
        steps := steps + [ByOthers(move)];
      }
    }

    /** Other threads take any steps they can. While the coordinator takes the store down they cannot
        reach its channel any more. */
    method Others()
      requires Valid()
      modifies this`world, this`steps, this`budget, this`script
      ensures Valid() && Since(old(steps), old(budget)) && budget <= old(budget)
      ensures Kept(old(Now()), Now())
    {
      var more: bool := *;
      while more && script != []
        invariant Valid() && Since(old(steps), old(budget)) && budget <= old(budget)
        invariant Kept(old(Now()), Now())
        decreases |script|
      {
        ghost var before := Now();
        Other();
        KeptOn(old(Now()), before, Now());
        more := *;
      }
    }

    /** `sender.send(reply)` for the request, or the bookkeeping of where it is. */
    method Note(id: Id, status: Status)
      requires id < |world.log|
      modifies this`world
      ensures world == old(world).(log := Marked(old(world).log, Mark(id, status)))
    {
      world := world.(log := world.log[id := world.log[id].(status := status)]);
    }

    // -------------------------------------------------------------- dispatching

    /** `prepare` and `prepare_dispatch`: the pool has its workers, or cannot take the job. */
    method PreparePool(required: nat) returns (ready: bool)
      requires pool.Valid() && required <= pool.capacity
      modifies pool`handles, pool`faults
      ensures pool.Valid()
      ensures PoolAllows(|old(pool.handles)|, required, |pool.handles|, if ready then Started else Unavailable)
      ensures ready || old(pool.faults) < pool.faults
      ensures old(pool.faults) <= pool.faults
    {
      ready := pool.Prepare(required);
      if ready {
        ready := pool.PrepareDispatch();
      }
    }

    /** The end of `dispatch_if_idle`: the job is handed to the pool; if it is lost on the way, the
        coordinator tells itself that the key is done. */
    method HandOver(key: KeyHash, id: Id) returns (ok: bool)
      requires id < |world.log|
      modifies this`world, this`active, pool`faults
      ensures active == old(active) + {key} && (ok <==> pool.open) && (ok || old(pool.faults) < pool.faults)
      ensures world == old(world).(
                log := Marked(old(world).log, Mark(id, FateStatus(if ok then Started else Lost))),
                jobs := if ok then old(world).jobs + [OperationJob(key, id, Ready)] else old(world).jobs,
                channel := if ok then old(world).channel else old(world).channel + [Completed(key, None)])
    {
      active := active + {key};
      ok := pool.Execute();
      if ok {
        Note(id, Running);
        world := world.(jobs := world.jobs + [OperationJob(key, id, Ready)]);
      } else {
        Note(id, Replied(Dropped));
        world := world.(channel := world.channel + [Completed(key, None)]);
      }
    }

    /** The operation cannot be started: it is answered, and its queue forgotten if nothing is left. */
    method GiveUp(key: KeyHash, id: Id)
      requires id < |world.log| && key in queues && key !in active
      modifies this`world, this`queues
      ensures world == old(world).(log := Marked(old(world).log, Mark(id, FateStatus(Unavailable))))
      ensures queues == Forget(old(queues), active, key)
    {
      Note(id, Replied(Refused(WorkerUnavailable)));
      if queues[key] == [] {
        queues := queues - {key};
      }
    }

    /** `dispatch_if_idle` past its tests: the next operation of the key leaves its queue, and is started
        if the pool has a worker for it. */
    method StartNext(key: KeyHash) returns (fate: Fate)
      requires pool.capacity == setup.maximum && pool.Valid()
      requires DispatchAt(control, key) && Dispatchable(setup, Now(), key) && queues[key][0] < |world.log|
      modifies this`world, this`queues, this`active, pool`handles, pool`faults
      ensures pool.Valid() && DispatchDone(setup, old(Now()), Now(), key, fate)
      ensures fate.Lost? ==> !pool.open
      ensures fate.Started? || old(pool.faults) < pool.faults
    {
      var id := queues[key][0];
      queues := queues[key := queues[key][1..]];
      var ready := PreparePool(|active| + 1);
      if ready {
        var ok := HandOver(key, id);
        fate := if ok then Started else Lost;
      } else {
        GiveUp(key, id);
        fate := Unavailable;
      }
    }

    ghost method RecordDispatch(before: State, key: KeyHash, fate: Fate) returns (action: Action)
      requires pool.capacity == setup.maximum && pool.Valid() && LeadsTo(before)
      requires DispatchDone(setup, before, Now(), key, fate)
      requires pool.open && !fate.Lost? && NoneLost(steps)
      modifies this`control, this`taken, this`steps, this`budget
      ensures Valid() && budget == old(budget) - 1 && steps == old(steps) + [ByCoordinator(action)]
      ensures action == Dispatch(key, |pool.handles|, fate)
      ensures Stepped(setup, before, ByCoordinator(action)) == Some(Now())
    {
      action := Dispatch(key, |pool.handles|, fate);
      DispatchSteps(setup, before, Now(), key, fate);
      Record(before, action);
    }

    /** `dispatch_if_idle`: one step, which starts the next operation of the key if it may run. */
    method DispatchIfIdle(key: KeyHash) returns (ghost action: Action)
      requires Valid() && DispatchAt(control, key)
      requires control.Filling? ==> Dispatchable(setup, Now(), key)
      modifies this`world, this`queues, this`active, this`control, this`taken, this`steps, this`budget
      modifies pool`handles, pool`faults
      ensures Valid() && budget == old(budget) - 1 && steps == old(steps) + [ByCoordinator(action)]
      ensures action == Skip || (action.Dispatch? && action.key == key)
      ensures Stepped(setup, old(Now()), ByCoordinator(action)) == Some(Now())
      ensures action.Dispatch? ==>
                action.fate.Started? || (action.fate.Unavailable? && old(pool.faults) < pool.faults)
    {
      if key in active || |active| >= setup.maximum || key !in queues || queues[key] == [] {
        Record(Now(), Skip);
        return Skip;
      }
      ghost var before := Now();
      Reached();
      IdsAreKnown(setup, before);
      var fate := StartNext(key);
      action := RecordDispatch(before, key, fate);
    }

    /** `dispatch_available`: starts operations of idle keys, in any order, until the store is at its
        bound or no idle key has one. Each round takes one operation from the queues. */
    method DispatchAvailable()
      requires Valid() && control.Filling?
      modifies this, pool`handles, pool`faults
      ensures Valid() && Since(old(steps), old(budget)) && control == old(control)
      ensures forall key | key in queues :: !Dispatchable(setup, Now(), key)
    {
      while |active| < setup.maximum
        invariant Valid() && Since(old(steps), old(budget)) && control == old(control)
        decreases QueuedCount(world.log)
      {
        Others();
        if key :| key in queues && queues[key] != [] && key !in active {
          ghost var before := Now();
          Reached();
          ghost var action := DispatchIfIdle(key);
          RoundTakesOne(setup, before, Now(), key, action);
        } else {
          break;
        }
      }
    }

    /** `dispatch_maintenance`. */
    method DispatchMaintenance(id: Id) returns (fate: Fate)
      requires id < |world.log| && pool.Valid() && 1 <= pool.capacity
      modifies this`world, pool`handles, pool`faults
      ensures pool.Valid() && PoolAllows(|old(pool.handles)|, 1, |pool.handles|, fate)
      ensures fate.Started? || old(pool.faults) < pool.faults
      ensures fate.Lost? ==> !pool.open
      ensures world == old(world).(
                log := Marked(old(world).log, Mark(id, FateStatus(fate))),
                jobs := if fate.Started? then old(world).jobs + [MaintenanceJob(id)] else old(world).jobs,
                channel := if fate.Started? then old(world).channel
                           else old(world).channel + [MaintenanceCompleted(None)])
    {
      var ready := PreparePool(1);
      if !ready {
        Note(id, Replied(Refused(WorkerUnavailable)));
        world := world.(channel := world.channel + [MaintenanceCompleted(None)]);
        return Unavailable;
      }
      var ok := pool.Execute();
      if !ok {
        Note(id, Replied(Dropped));
        world := world.(channel := world.channel + [MaintenanceCompleted(None)]);
        return Lost;
      }
      Note(id, Running);
      world := world.(jobs := world.jobs + [MaintenanceJob(id)]);
      return Started;
    }

    /** A round of `advance_pending_if_ready` that stays where it is. */
    ghost method StayPut()
      requires Valid() && control.Advancing? && (pending != [] ==> pending[0] < |world.log|) && RoundOf(Now()).Stay?
      modifies this`control, this`taken, this`steps, this`budget
      ensures Valid() && Since(old(steps), old(budget)) && control.Checking?
    {
      AdvanceStays(setup, Now());
      Record(Now(), Advance(|pool.handles|, Unavailable));
    }

    /** `advance_pending_if_ready`. */
    method AdvancePendingIfReady()
      requires Valid() && control.Advancing?
      modifies this, pool`handles, pool`faults
      ensures Valid() && Since(old(steps), old(budget)) && control.Checking?
    {
      Reached();
      IdsAreKnown(setup, Now());
      if maintenanceActive {
        StayPut();
        return;
      }
      var goOn := true;
      while goOn
        invariant Valid() && Since(old(steps), old(budget))
        invariant if goOn then control.Advancing? && !maintenanceActive else control.Checking?
        decreases goOn, |pending|
      {
        Others();
        goOn := AdvanceRound();
      }
    }

    /** One round of the loop of `advance_pending_if_ready`, by the front of what is held back. */
    method AdvanceRound() returns (goOn: bool)
      requires Valid() && control.Advancing? && !maintenanceActive
      modifies this, pool`handles, pool`faults
      ensures Valid() && Since(old(steps), old(budget))
      ensures goOn ==> control.Advancing? && !maintenanceActive && |pending| < |old(pending)|
      ensures !goOn ==> control.Checking?
    {
      Reached();
      IdsAreKnown(setup, Now());
      goOn := false;
      if pending == [] {
        StayPut();
        return;
      }
      match world.log[pending[0]].request {
        case Maintain =>
          if active != {} || !AllQueuesEmpty(queues) {
            StayPut();
            return;
          }
          StartMaintenance();
        case Operate(key, _) =>
          Readmit(key);
          goOn := true;
        case Flush =>
          if active != {} || !AllQueuesEmpty(queues) {
            StayPut();
            return;
          }
          AnswerFlush();
          goOn := true;
        case Close => StayPut();
      }
    }

    method StartMaintenance()
      requires Valid() && control.Advancing? && pending != [] && pending[0] < |world.log|
      requires RoundOf(Now()).StartMaintenance?
      modifies this`world, this`pending, this`maintenanceActive, this`control, this`taken, this`steps, this`budget
      modifies pool`handles, pool`faults
      ensures Valid() && Since(old(steps), old(budget)) && control.Checking? && maintenanceActive
    {
      ghost var before := Now();
      var id := pending[0];
      pending := pending[1..];
      maintenanceActive := true;
      var fate := DispatchMaintenance(id);
      AdvanceSteps(setup, before, Now(), fate);
      Record(before, Advance(|pool.handles|, fate));
    }

    /** A held-back submission goes to its queue, and is started if its key is idle. */
    method Readmit(key: KeyHash)
      requires Valid() && control.Advancing? && pending != [] && pending[0] < |world.log| && !maintenanceActive
      requires world.log[pending[0]].request.Operate? && world.log[pending[0]].request.key == key
      modifies this, pool`handles, pool`faults
      ensures Valid() && Since(old(steps), old(budget))
      ensures control.Advancing? && pending == old(pending)[1..] && !maintenanceActive
    {
      EnqueueFront(key);
      Others();
      ghost var action := DispatchIfIdle(key);
    }

    method EnqueueFront(key: KeyHash)
      requires Valid() && control.Advancing? && pending != [] && pending[0] < |world.log| && !maintenanceActive
      requires world.log[pending[0]].request.Operate? && world.log[pending[0]].request.key == key
      modifies this`world, this`queues, this`pending, this`control, this`taken, this`steps, this`budget
      ensures Valid() && Since(old(steps), old(budget))
      ensures control == Readmitting(key) && pending == old(pending)[1..]
    {
      ghost var before := Now();
      var id := pending[0];
      pending := pending[1..];
      queues := Push(queues, key, id);
      Note(id, Queued);
      AdvanceSteps(setup, before, Now(), Unavailable);
      Record(before, Advance(|pool.handles|, Unavailable));
    }

    method AnswerFlush()
      requires Valid() && control.Advancing? && pending != [] && pending[0] < |world.log|
      requires RoundOf(Now()).AnswerFlush?
      modifies this`world, this`pending, this`control, this`taken, this`steps, this`budget
      ensures Valid() && Since(old(steps), old(budget)) && control.Advancing? && pending == old(pending)[1..]
    {
      ghost var before := Now();
      var id := pending[0];
      pending := pending[1..];
      Note(id, Replied(Succeeded));
      AdvanceSteps(setup, before, Now(), Unavailable);
      Record(before, Advance(|pool.handles|, Unavailable));
    }

    // -------------------------------------------------------------- events

    /** `recv`. It reports disconnection when nothing is in the channel and nobody is left who could send. */
    method Recv() returns (reception: Reception)
      requires Valid() && control.Receiving?
      modifies this`world, this`active, this`maintenanceActive, this`control, this`taken, this`steps, this`budget
      ensures Valid() && Since(old(steps), old(budget))
      ensures match reception
              case NothingYet =>
                Now() == old(Now()) && script == old(script) && world.channel == [] && SendersAlive(Now())
              case Disconnected => Now() == old(Now()) && Enabled(setup, Now(), Disconnect)
              case Got(event) =>
                && old(world.channel) != [] && event == old(world.channel)[0] && |old(steps)| < |steps|
                && Stepped(setup, old(Now()), ByCoordinator(Receive)) == Some(Now())
    {
      if world.channel == [] {
        if SendersAlive(State(world, queues, active, pending, maintenanceActive, |pool.handles|, Receiving, [])) {
          return NothingYet;
        }
        return Disconnected;
      }
      var event := TakeEvent();
      return Got(event);
    }

    /** An event leaves the channel; with it goes what its arm of the event loop does first. */
    method TakeEvent() returns (event: Event)
      requires Valid() && control.Receiving? && world.channel != []
      modifies this`world, this`active, this`maintenanceActive, this`control, this`taken, this`steps, this`budget
      ensures Valid() && budget == old(budget) - 1 && steps == old(steps) + [ByCoordinator(Receive)]
      ensures event == old(world.channel)[0]
      ensures Stepped(setup, old(Now()), ByCoordinator(Receive)) == Some(Now())
    {
      ghost var before := Now();
      Reached();
      IdsAreKnown(setup, before);
      event := world.channel[0];
      world := world.(channel := world.channel[1..]);
      match event {
        case Requested(_) =>
        case Completed(key, outcome) =>
          active := active - {key};
          if outcome.Some? {
            Note(outcome.value.0, Delivering);
          }
        case MaintenanceCompleted(report) =>
          maintenanceActive := false;
          if report.Some? {
            Note(report.value, Replied(Reported));
          }
      }
      Record(before, Receive);
    }

    /** What a request taken from the channel comes to, before anything is dispatched. */
    method Turn(id: Id, status: Status)
      requires Valid() && control == Handling(id) && id < |world.log|
      requires status == HandleStatus(Now(), world.log[id].request)
      modifies this`world, this`queues, this`pending, this`control, this`taken, this`steps, this`budget
      ensures Valid() && Since(old(steps), old(budget))
      ensures Stepped(setup, old(Now()), ByCoordinator(Handle)) == Some(Now())
    {
      ghost var before := Now();
      var request := world.log[id].request;
      if request.Close? && world.lifecycle.Open? {
        world := world.(lifecycle := Closing);
      }
      if status.Deferred? {
        pending := pending + [id];
      }
      if status.Queued? {
        queues := Push(queues, request.key, id);
      }
      Note(id, status);
      RecordTurn(before, id, status);
    }

    ghost method RecordTurn(before: State, id: Id, status: Status)
      requires pool.capacity == setup.maximum && pool.Valid() && pool.open && LeadsTo(before) && NoneLost(steps)
      requires HandleDone(before, Now(), id, status)
      modifies this`control, this`taken, this`steps, this`budget
      ensures Valid() && Since(old(steps), old(budget))
      ensures Stepped(setup, before, ByCoordinator(Handle)) == Some(Now())
    {
      HandleSteps(setup, before, Now(), id, status);
      Record(before, Handle);
    }

    /** The arm for a submission. */
    method OnSubmission(id: Id, key: KeyHash) returns (goOn: bool)
      requires Valid() && control == Handling(id) && id < |world.log|
      requires world.log[id].request.Operate? && world.log[id].request.key == key
      modifies this, pool`handles, pool`faults
      ensures Valid() && Since(old(steps), old(budget)) && if goOn then control.Checking? else control.Receiving?
    {
      if !world.lifecycle.Open? {
        Turn(id, Replied(Refused(StoreClosed)));
        return false;
      }
      if maintenanceActive || pending != [] {
        Turn(id, Deferred);
        return false;
      }
      Turn(id, Queued);
      DispatchAround(key);
      EndSubmission();
      return true;
    }

    ghost method EndSubmission()
      requires Valid() && control == Filling(AfterSubmission)
      requires forall key | key in queues :: !Dispatchable(setup, Now(), key)
      modifies this`control, this`taken, this`steps, this`budget
      ensures Valid() && Since(old(steps), old(budget)) && control.Checking?
    {
      Record(Now(), EndFilling);
    }

    /** `dispatch_if_idle` for the key, and `dispatch_available`. */
    method DispatchAround(key: KeyHash)
      requires Valid() && control.Retrying? && control.key == key
      modifies this, pool`handles, pool`faults
      ensures Valid() && Since(old(steps), old(budget)) && control == Filling(old(control).next)
      ensures forall other | other in queues :: !Dispatchable(setup, Now(), other)
    {
      Others();
      ghost var action := DispatchIfIdle(key);
      DispatchAvailable();
    }

    /** The arm for the completion of an operation. */
    method OnCompletion(key: KeyHash, outcome: Outcome)
      requires Valid() && control == Retrying(key, AfterCompletion(key, outcome))
      modifies this, pool`handles, pool`faults
      ensures Valid() && Since(old(steps), old(budget)) && control.Checking?
    {
      DispatchAround(key);
      FinishCompletion(key, outcome);
      AdvancePendingIfReady();
    }

    /** An emptied queue is forgotten, and the result delivered. */
    method FinishCompletion(key: KeyHash, outcome: Outcome)
      requires Valid() && control == Filling(AfterCompletion(key, outcome))
      requires forall other | other in queues :: !Dispatchable(setup, Now(), other)
      modifies this`world, this`queues, this`control, this`taken, this`steps, this`budget
      ensures Valid() && budget == old(budget) - 1 && steps == old(steps) + [ByCoordinator(EndFilling)]
      ensures control.Advancing?
    {
      ghost var before := Now();
      Reached();
      IdsAreKnown(setup, before);
      if key !in active && key in queues && queues[key] == [] {
        queues := queues - {key};
      }
      if outcome.Some? {
        Note(outcome.value.0, Replied(Answered(outcome.value.1)));
      }
      CompletionSteps(setup, before, Now(), key, outcome);
      Record(before, EndFilling);
    }

    /** The arms for maintenance and for a flush. */
    method OnBarrier(id: Id) returns (goOn: bool)
      requires Valid() && control == Handling(id) && id < |world.log|
      requires world.log[id].request.Maintain? || world.log[id].request.Flush?
      modifies this, pool`handles, pool`faults
      ensures Valid() && Since(old(steps), old(budget)) && if goOn then control.Checking? else control.Receiving?
    {
      if !world.lifecycle.Open? {
        Turn(id, Replied(Refused(StoreClosed)));
        return false;
      }
      Turn(id, Deferred);
      AdvancePendingIfReady();
      return true;
    }

    /** The arm for a close. */
    method OnClose(id: Id)
      requires Valid() && control == Handling(id) && id < |world.log| && world.log[id].request.Close?
      modifies this, pool`handles, pool`faults
      ensures Valid() && Since(old(steps), old(budget)) && control.Checking?
    {
      match world.lifecycle {
        case Open => Turn(id, Deferred);
        case Closing => Turn(id, Deferred);
        case Closed => Turn(id, Replied(Succeeded));
        case ShutdownFailed => Turn(id, Replied(Refused(ShutdownFailure)));
        case Failed => Turn(id, Replied(Refused(ShutdownFailure)));
      }
      AdvancePendingIfReady();
    }

    // -------------------------------------------------------------- the end

    /** The end of the event loop's body: a close that is due takes the store down. */
    method CloseIfDue() returns (stopped: bool)
      requires Valid() && control.Checking?
      modifies this, pool
      ensures Valid() && Since(old(steps), old(budget)) && if stopped then control.Stopped? else control.Receiving?
      ensures stopped ==>
                (control.ok <==> forall i | 0 <= i < |old(pool.handles)| :: old(pool.handles)[i] !in pool.panicking)
      ensures stopped ==> (control.ok <==> pool.AllWell())
    {
      Reached();
      IdsAreKnown(setup, Now());
      ghost var before := Now();
      if !(pending != [] && world.log[pending[0]].request.Close?
           && active == {} && AllQueuesEmpty(queues) && !maintenanceActive) {
        GoBack();
        return false;
      }
      var ok := pool.Shutdown();
      RecordShutdown(before, ok);
      TakeDown(ok);
      return true;
    }

    ghost method GoBack()
      requires Valid() && control.Checking? && !CloseIsDue(Now())
      modifies this`control, this`taken, this`steps, this`budget
      ensures Valid() && Since(old(steps), old(budget)) && control.Receiving?
    {
      Record(Now(), Check(true));
    }

    ghost method RecordShutdown(before: State, ok: bool)
      requires pool.capacity == setup.maximum && pool.Valid() && LeadsTo(before) && NoneLost(steps)
      requires before.control.Checking? && CloseIsDue(before) && Now() == before.(workers := 0)
      modifies this`control, this`taken, this`steps, this`budget
      ensures Valid() && Since(old(steps), old(budget)) && control == PoolDown(ok)
    {
      Record(before, Check(ok));
    }

    /** The workers are joined: the final state is written, and every close still waiting is answered. */
    method TakeDown(ok: bool)
      requires Valid() && control == PoolDown(ok)
      modifies this
      ensures Valid() && Since(old(steps), old(budget)) && control == Stopped(ok)
    {
      Others();
      WriteFinalState(ok);
      AnswerPendingCloses(ok);
      DrainChannel(ok);
    }

    method WriteFinalState(ok: bool)
      requires Valid() && control == PoolDown(ok)
      modifies this`world, this`control, this`taken, this`steps, this`budget
      ensures Valid() && Since(old(steps), old(budget)) && control == Draining(ok)
    {
      ghost var before := Now();
      world := world.(lifecycle := if ok then Closed else ShutdownFailed);
      Record(before, WriteTerminal);
    }

    method AnswerPendingCloses(ok: bool)
      requires Valid() && control == Draining(ok)
      modifies this
      ensures Valid() && Since(old(steps), old(budget)) && control == Draining(ok) && pending == []
    {
      Reached();
      IdsAreKnown(setup, Now());
      while pending != [] && world.log[pending[0]].request.Close?
        invariant Valid() && Since(old(steps), old(budget)) && control == Draining(ok)
        invariant pending != [] ==> pending[0] < |world.log|
        decreases |pending|
      {
        AnswerClose(ok);
        Others();
        Reached();
        IdsAreKnown(setup, Now());
      }
      Reached();
      OnlyClosesWait(setup, Now());
    }

    method AnswerClose(ok: bool)
      requires Valid() && control == Draining(ok) && FrontIsClose(Now())
      modifies this`world, this`pending, this`control, this`taken, this`steps, this`budget
      ensures Valid() && budget == old(budget) - 1 && steps == old(steps) + [ByCoordinator(Drain)]
      ensures control == Draining(ok)
      ensures pending == old(pending)[1..]
    {
      ghost var before := Now();
      Reached();
      IdsAreKnown(setup, before);
      var id := pending[0];
      pending := pending[1..];
      Note(id, Replied(CloseReply(ok)));
      Record(before, Drain);
    }

    /** `try_recv` until the channel is empty. Nothing can be sent any more, so this ends. */
    method DrainChannel(ok: bool)
      requires Valid() && control == Draining(ok) && pending == []
      modifies this
      ensures Valid() && Since(old(steps), old(budget)) && control == Stopped(ok)
    {
      while world.channel != []
        invariant Valid() && Since(old(steps), old(budget)) && control == Draining(ok) && pending == []
        decreases |world.channel|
      {
        DrainOne(ok);
        Others();
      }
      Record(Now(), Drain);
    }

    method DrainOne(ok: bool)
      requires Valid() && control == Draining(ok) && pending == [] && world.channel != []
      modifies this`world, this`control, this`taken, this`steps, this`budget
      ensures Valid() && budget == old(budget) - 1 && steps == old(steps) + [ByCoordinator(Drain)]
      ensures control == Draining(ok)
      ensures world.channel == old(world.channel)[1..]
    {
      ghost var before := Now();
      Reached();
      IdsAreKnown(setup, before);
      var event := world.channel[0];
      world := world.(channel := world.channel[1..]);
      if event.Requested? {
        if world.log[event.id].request.Close? {
          Note(event.id, Replied(CloseReply(ok)));
        } else {
          Note(event.id, Replied(Refused(StoreClosed)));
        }
        DrainSteps(setup, before, Now(), event.id);
      } else {
        DrainSkips(setup, before, Now());
      }
      RecordDrain(before, ok);
    }

    ghost method RecordDrain(before: State, ok: bool)
      requires pool.capacity == setup.maximum && pool.Valid() && LeadsTo(before) && NoneLost(steps)
      requires control == Draining(ok) && Stepped(setup, before, ByCoordinator(Drain)) == Some(Now())
      modifies this`control, this`taken, this`steps, this`budget
      ensures Valid() && budget == old(budget) - 1 && steps == old(steps) + [ByCoordinator(Drain)]
      ensures control == Draining(ok)
    {
      Record(before, Drain);
    }

    /** The last handle is gone and everything is done. */
    method OnDisconnect()
      requires Valid() && Enabled(setup, Now(), Disconnect)
      modifies this, pool
      ensures Valid() && Since(old(steps), old(budget)) && control == Stopped(true) && !HasClose(world.log)
    {
      ghost var before := Now();
      Reached();
      NobodyClosed(setup, before);
      var ignored := pool.Shutdown();
      world := world.(lifecycle := Closed);
      Record(before, Disconnect);
    }

    /** One event; `continue` skips the test for a close that is due. */
    method HandleEvent(event: Event) returns (goOn: bool)
      requires Valid()
      requires match event
               case Requested(id) => control == Handling(id)
               case Completed(key, outcome) => control == Retrying(key, AfterCompletion(key, outcome))
               case MaintenanceCompleted(_) => control.Advancing?
      modifies this, pool`handles, pool`faults
      ensures Valid() && Since(old(steps), old(budget)) && if goOn then control.Checking? else control.Receiving?
    {
      goOn := true;
      match event {
        case Completed(key, outcome) => OnCompletion(key, outcome);
        case MaintenanceCompleted(_) => AdvancePendingIfReady();
        case Requested(id) =>
          Others();
          Reached();
          IdsAreKnown(setup, Now());
          match world.log[id].request {
            case Operate(key, _) => goOn := OnSubmission(id, key);
            case Maintain => goOn := OnBarrier(id);
            case Flush => goOn := OnBarrier(id);
            case Close => OnClose(id);
          }
      }
    }

    /** One turn of the event loop. */
    method LoopTurn() returns (loop: Loop)
      requires Valid() && control.Receiving?
      modifies this, pool
      ensures Valid() && Since(old(steps), old(budget))
      ensures match loop
              case GoesOn => control.Receiving? && budget < old(budget)
              case Waits => control.Receiving? && world.channel == [] && script == [] && SendersAlive(Now())
              case Returns =>
                control.Stopped? && ((control.ok <==> pool.AllWell()) || (control.ok && !HasClose(world.log)))
    {
      Others();
      ghost var arrived := Now();
      var reception := Recv();
      match reception {
        case Disconnected =>
          OnDisconnect();
          return Returns;
        case NothingYet =>
          if script == [] {
            return Waits;
          }
          Other();
          return GoesOn;
        case Got(event) =>
          EventIsInHand(setup, arrived, Now(), event);
          var stopped := LoopBody(event);
          return if stopped then Returns else GoesOn;
      }
    }

    /** The body of the event loop: the event, and unless it was turned away the test for a close. */
    method LoopBody(event: Event) returns (stopped: bool)
      requires Valid()
      requires match event
               case Requested(id) => control == Handling(id)
               case Completed(key, outcome) => control == Retrying(key, AfterCompletion(key, outcome))
               case MaintenanceCompleted(_) => control.Advancing?
      modifies this, pool
      ensures Valid() && Since(old(steps), old(budget)) && if stopped then control.Stopped? else control.Receiving?
      ensures stopped ==> (control.ok <==> pool.AllWell())
    {
      var goOn := HandleEvent(event);
      if goOn {
        stopped := CloseIfDue();
      } else {
        stopped := false;
      }
    }

    /** `run_scheduler`, for any script of what the other threads try. It takes only steps of the machine,
        and loses no job on the way to the pool. It comes to an end: either it has returned, holding
        nothing, with an empty channel and every request answered; or it waits at `recv`, nothing is on its
        way, the script is at its end, and unless a job is still out every request is answered. If it has
        returned and no thread of the pool had panicked, the lifecycle is `Closed` and every close has
        succeeded; if one had and the store was closed, it is `ShutdownFailed` and every close says so. */
    method RunScheduler() returns (returned: bool)
      requires Valid() && control.Receiving?
      modifies this, pool
      ensures Valid() && Since(old(steps), old(budget)) && NoneLost(steps)
      ensures returned ==> control.Stopped? && HoldsNothing(Now()) && world.channel == [] && AllAnswered(Now())
      ensures !returned ==> control.Receiving? && world.channel == [] && script == [] && SendersAlive(Now())
      ensures !returned && world.jobs == [] ==> HoldsNothing(Now()) && AllAnswered(Now())
      ensures returned && pool.AllWell() ==>
                world.lifecycle == Closed
                && forall c | 0 <= c < |world.log| && world.log[c].request.Close? ::
                     world.log[c].status == Replied(Succeeded)
      ensures returned && !pool.AllWell() && HasClose(world.log) ==>
                world.lifecycle == ShutdownFailed
                && forall c | 0 <= c < |world.log| && world.log[c].request.Close? ::
                     world.log[c].status == Replied(Refused(ShutdownFailure))
    {
      var loop := GoesOn;
      while loop.GoesOn?
        invariant Valid() && Since(old(steps), old(budget))
        invariant match loop
                  case GoesOn => control.Receiving?
                  case Waits => control.Receiving? && world.channel == [] && script == [] && SendersAlive(Now())
                  case Returns =>
                    control.Stopped? && ((control.ok <==> pool.AllWell()) || (control.ok && !HasClose(world.log)))
        decreases loop.GoesOn?, budget
      {
        loop := LoopTurn();
      }
      Reached();
      AtTheEnd(setup, Now());
      if loop.Returns? {
        ClosesEnd(setup, Now());
      }
      return loop.Returns?;
    }
  }
}
