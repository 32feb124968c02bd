/** That callers of streams can stall a store: the run behind the condition of the theorems of Progress.dfy. */
module Stalls {
  import opened Endings
  import opened Operations
  import opened Progress
  import opened Protocol
  import opened Results
  import opened Runs

  /** A store on which one streaming load was sent and not yet started. */
  function Asking(
      setup: Setup, key: KeyHash, status: Status, queues: map<KeyHash, seq<Id>>, channel: seq<Event>, control: Control):
    State
  {
    State(World([Entry(Operate(key, LoadStream), status, None)], 1, Open, channel, [], setup.base),
          queues, {}, [], false, 0, control, [])
  }

  /** The same store once the load has a job. */
  function Serving(setup: Setup, key: KeyHash, stage: Stage, control: Control): State {
    State(World([Entry(Operate(key, LoadStream), Running, None)], 1, Open, [], [OperationJob(key, 0, stage)],
                setup.base),
          map[key := []], {key}, [], false, 1, control, [0])
  }

  /** The store while the load waits for its reader. */
  function Stalling(setup: Setup, key: KeyHash): State {
    Serving(setup, key, Opened(At(setup.base, key)), Receiving)
  }

  lemma LeadsOn(setup: Setup, s: State, step: Step, t: State)
    requires Reachable(setup, s) && Stepped(setup, s, step) == Some(t)
    ensures Reachable(setup, t)
  {
    StepStaysReachable(setup, s, step);
  }

  lemma LoadIsSent(setup: Setup, key: KeyHash)
    ensures Stepped(setup, Initial(setup), ByOthers(Send(Operate(key, LoadStream))))
            == Some(Asking(setup, key, Waiting, map[], [Requested(0)], Receiving))
  {
    var w, later := Initial(setup).world, Asking(setup, key, Waiting, map[], [Requested(0)], Receiving).world;
    assert w.log + [Entry(Operate(key, LoadStream), Waiting, None)] == later.log;
    assert w.channel + [Requested(0)] == later.channel;
  }

  lemma LoadIsReceived(setup: Setup, key: KeyHash)
    ensures Stepped(setup, Asking(setup, key, Waiting, map[], [Requested(0)], Receiving), ByCoordinator(Receive))
            == Some(Asking(setup, key, Waiting, map[], [], Handling(0)))
  {
    assert Asking(setup, key, Waiting, map[], [Requested(0)], Receiving).world.channel[1..] == [];
  }

  lemma LoadIsQueued(setup: Setup, key: KeyHash)
    ensures Stepped(setup, Asking(setup, key, Waiting, map[], [], Handling(0)), ByCoordinator(Handle))
            == Some(Asking(setup, key, Queued, map[key := [0]], [], Retrying(key, AfterSubmission)))
  {
    var none: seq<Id> := [];
    assert none + [0] == [0];
    var log := Asking(setup, key, Waiting, map[], [], Handling(0)).world.log;
    assert Marked(log, Mark(0, Queued)) == [Entry(Operate(key, LoadStream), Queued, None)];
  }

  lemma LoadIsStarted(setup: Setup, key: KeyHash)
    requires 1 <= setup.maximum
    ensures Stepped(setup, Asking(setup, key, Queued, map[key := [0]], [], Retrying(key, AfterSubmission)),
                    ByCoordinator(Dispatch(key, 1, Started)))
            == Some(Serving(setup, key, Ready, Filling(AfterSubmission)))
  {
    var s := Asking(setup, key, Queued, map[key := [0]], [], Retrying(key, AfterSubmission));
    var t := Serving(setup, key, Ready, Filling(AfterSubmission));
    var queue: seq<Id> := [0];
    assert queue[1..] == [] && s.queues[key] == queue;
    assert s.queues[key := queue[1..]] == t.queues;
    assert s.taken + queue == t.taken;
    assert s.world.jobs + t.world.jobs == t.world.jobs;
    assert Marked(s.world.log, Mark(0, Running)) == t.world.log;
  }

  lemma LoadIsLeft(setup: Setup, key: KeyHash)
    ensures Stepped(setup, Serving(setup, key, Ready, Filling(AfterSubmission)), ByCoordinator(EndFilling))
            == Some(Serving(setup, key, Ready, Checking))
    ensures Stepped(setup, Serving(setup, key, Ready, Checking), ByCoordinator(Check(true)))
            == Some(Serving(setup, key, Ready, Receiving))
  {
  }

  lemma LoadOpens(setup: Setup, key: KeyHash)
    ensures Stepped(setup, Serving(setup, key, Ready, Receiving), ByOthers(Observe(0))) == Some(Stalling(setup, key))
  {
    var s := Serving(setup, key, Ready, Receiving);
    assert s.world.jobs[0 := OperationJob(key, 0, Opened(At(setup.base, key)))] == Stalling(setup, key).world.jobs;
  }

  lemma LoadIsAsked(setup: Setup, key: KeyHash)
    requires 1 <= setup.maximum
    ensures Reachable(setup, Asking(setup, key, Queued, map[key := [0]], [], Retrying(key, AfterSubmission)))
  {
    assert IsRun(setup, Initial(setup), []) && After(setup, Initial(setup), []) == Initial(setup);
    var s1 := Asking(setup, key, Waiting, map[], [Requested(0)], Receiving);
    var s2 := Asking(setup, key, Waiting, map[], [], Handling(0));
    LoadIsSent(setup, key);
    LoadIsReceived(setup, key);
    LoadIsQueued(setup, key);
    LeadsOn(setup, Initial(setup), ByOthers(Send(Operate(key, LoadStream))), s1);
    LeadsOn(setup, s1, ByCoordinator(Receive), s2);
    LeadsOn(setup, s2, ByCoordinator(Handle),
            Asking(setup, key, Queued, map[key := [0]], [], Retrying(key, AfterSubmission)));
  }

  lemma LoadIsServed(setup: Setup, key: KeyHash)
    requires 1 <= setup.maximum
    requires Reachable(setup, Asking(setup, key, Queued, map[key := [0]], [], Retrying(key, AfterSubmission)))
    ensures Reachable(setup, Stalling(setup, key))
  {
    var s3 := Asking(setup, key, Queued, map[key := [0]], [], Retrying(key, AfterSubmission));
    var s4 := Serving(setup, key, Ready, Filling(AfterSubmission));
    var s5, s6 := Serving(setup, key, Ready, Checking), Serving(setup, key, Ready, Receiving);
    LoadIsStarted(setup, key);
    LoadIsLeft(setup, key);
    LoadOpens(setup, key);
    LeadsOn(setup, s3, ByCoordinator(Dispatch(key, 1, Started)), s4);
    LeadsOn(setup, s4, ByCoordinator(EndFilling), s5);
    LeadsOn(setup, s5, ByCoordinator(Check(true)), s6);
    LeadsOn(setup, s6, ByOthers(Observe(0)), Stalling(setup, key));
  }

  lemma NothingFree(setup: Setup, key: KeyHash, s: State)
    requires s == Stalling(setup, key)
    ensures OnlyStallsLeft(setup, s, {0}) && !AllAnswered(s)
  {
    assert SendersAlive(s);
    assert !s.world.log[0].status.Replied?;
  }

  /** Stalls happen: one streaming load whose reader never acknowledges it, and its request is not answered,
      though neither coordinator nor worker has a step left that does not wait for the reader. */
  lemma StallsHappen(setup: Setup, key: KeyHash)
    requires 1 <= setup.maximum
    ensures Reachable(setup, Stalling(setup, key))
    ensures OnlyStallsLeft(setup, Stalling(setup, key), {0}) && !AllAnswered(Stalling(setup, key))
  {
    LoadIsAsked(setup, key);
    LoadIsServed(setup, key);
    NothingFree(setup, key, Stalling(setup, key));
  }
}
