/** Every step keeps one token for each active key: a job with the workers, or its completion on the
    way back. */
module StepsTokens {
  import opened Invariant
  import opened Operations
  import opened Protocol
  import opened Results
  import opened StepsPlaces

  // ---------------------------------------------------------------- counting

  lemma JobsAppend(jobs: seq<Job>, job: Job, key: KeyHash)
    ensures JobsFor(jobs + [job], key) == JobsFor(jobs, key) + (if Serves(job, key) then 1 else 0)
    ensures MaintenanceJobs(jobs + [job]) == MaintenanceJobs(jobs) + (if job.MaintenanceJob? then 1 else 0)
  {
    assert (jobs + [job])[..|jobs|] == jobs;
  }

  lemma {:induction false} JobsWithout(jobs: seq<Job>, at: nat, key: KeyHash)
    requires at < |jobs|
    ensures JobsFor(jobs, key) == JobsFor(Without(jobs, at), key) + (if Serves(jobs[at], key) then 1 else 0)
    ensures MaintenanceJobs(jobs) == MaintenanceJobs(Without(jobs, at)) + (if jobs[at].MaintenanceJob? then 1 else 0)
    decreases |jobs|
  {
    var init, last := jobs[..|jobs| - 1], jobs[|jobs| - 1];
    if at == |jobs| - 1 {
      assert Without(jobs, at) == init;
    } else {
      JobsWithout(init, at, key);
      assert Without(jobs, at) == Without(init, at) + [last];
      JobsAppend(Without(init, at), last, key);
    }
  }

  lemma {:induction false} JobsRestaged(jobs: seq<Job>, at: nat, stage: Stage, key: KeyHash)
    requires at < |jobs| && jobs[at].OperationJob?
    ensures JobsFor(jobs[at := jobs[at].(stage := stage)], key) == JobsFor(jobs, key)
    ensures MaintenanceJobs(jobs[at := jobs[at].(stage := stage)]) == MaintenanceJobs(jobs)
    decreases |jobs|
  {
    var init := jobs[..|jobs| - 1];
    var restaged := jobs[at := jobs[at].(stage := stage)];
    if at == |jobs| - 1 {
      assert restaged[..|jobs| - 1] == init;
    } else {
      JobsRestaged(init, at, stage, key);
      assert restaged[..|jobs| - 1] == init[at := jobs[at].(stage := stage)];
    }
  }

  lemma {:induction false} CompletionsAppend(channel: seq<Event>, event: Event, key: KeyHash)
    ensures CompletionsFor(channel + [event], key)
              == CompletionsFor(channel, key) + (if Completes(event, key) then 1 else 0)
    ensures MaintenanceCompletions(channel + [event])
            == MaintenanceCompletions(channel) + (if event.MaintenanceCompleted? then 1 else 0)
  {
    if channel == [] {
      assert channel + [event] == [event];
    } else {
      CompletionsAppend(channel[1..], event, key);
      assert (channel + [event])[1..] == channel[1..] + [event];
    }
  }

  lemma {:induction false} CompletionIsCounted(channel: seq<Event>, at: nat)
    requires at < |channel|
    ensures channel[at].Completed? ==> CompletionsFor(channel, channel[at].key) >= 1
    ensures channel[at].MaintenanceCompleted? ==> MaintenanceCompletions(channel) >= 1
  {
    if at > 0 {
      CompletionIsCounted(channel[1..], at - 1);
    }
  }

  lemma JobIsCounted(jobs: seq<Job>, at: nat)
    requires at < |jobs|
    ensures jobs[at].OperationJob? ==> JobsFor(jobs, jobs[at].key) >= 1
    ensures jobs[at].MaintenanceJob? ==> MaintenanceJobs(jobs) >= 1
  {
    if jobs[at].OperationJob? {
      JobsWithout(jobs, at, jobs[at].key);
    } else {
      JobsWithout(jobs, at, KeyHash([]));
    }
  }

  /** A job's key is active, and so is the key of a completion on its way. */
  lemma TokenMeansActive(s: State, key: KeyHash)
    requires TokenInv(s)
    ensures JobsFor(s.world.jobs, key) + CompletionsFor(s.world.channel, key) == if key in s.active then 1 else 0
  {
    assert Tokens(s.world, key) == if key in s.active then 1 else 0;
  }

  lemma JobsAreCounted(jobs: seq<Job>, a: nat, b: nat, key: KeyHash)
    requires a < |jobs| && b < |jobs| && a != b
    ensures Serves(jobs[a], key) && Serves(jobs[b], key) ==> JobsFor(jobs, key) >= 2
    ensures jobs[a].MaintenanceJob? && jobs[b].MaintenanceJob? ==> MaintenanceJobs(jobs) >= 2
  {
    var rest, b' := Without(jobs, a), if b < a then b else b - 1;
    assert rest[b'] == jobs[b];
    JobsWithout(jobs, a, key);
    JobIsCounted(rest, b');
  }

  /** Two different jobs never work for the same key, nor on the same request. */
  lemma JobsAreApart(s: State, a: nat, b: nat)
    requires TokenInv(s) && RunningInv(s) && a < |s.world.jobs| && b < |s.world.jobs| && a != b
    ensures s.world.jobs[a].id != s.world.jobs[b].id
    ensures s.world.jobs[a].OperationJob? && s.world.jobs[b].OperationJob? ==>
              s.world.jobs[a].key != s.world.jobs[b].key
    ensures s.world.jobs[a].OperationJob? || s.world.jobs[b].OperationJob?
  {
    var jobs := s.world.jobs;
    var key := if jobs[a].OperationJob? then jobs[a].key else KeyHash([]);
    JobsAreCounted(jobs, a, b, key);
    TokenMeansActive(s, key);
    assert JobOk(s.world, jobs[a]) && JobOk(s.world, jobs[b]);
  }

  /** While a job is with the workers its completion is not on the way back. */
  lemma JobsAndCompletionsAreApart(s: State, j: nat, e: nat)
    requires TokenInv(s) && RunningInv(s) && j < |s.world.jobs| && e < |s.world.channel|
    ensures !Ends(s.world.channel[e], s.world.jobs[j].id)
    ensures s.world.jobs[j].OperationJob? && s.world.channel[e].Completed? ==>
              s.world.jobs[j].key != s.world.channel[e].key
    ensures !(s.world.jobs[j].MaintenanceJob? && s.world.channel[e].MaintenanceCompleted?)
  {
    var jobs, channel := s.world.jobs, s.world.channel;
    JobIsCounted(jobs, j);
    CompletionIsCounted(channel, e);
    assert JobOk(s.world, jobs[j]) && EventOk(s.world, channel[e]);
    if jobs[j].OperationJob? {
      TokenMeansActive(s, jobs[j].key);
    }
  }

  /** No two completions on the way back are for the same key or end the same request. */
  lemma CompletionsAreApart(s: State, e: nat)
    requires TokenInv(s) && RunningInv(s) && 0 < e < |s.world.channel|
    ensures forall id | Ends(s.world.channel[0], id) :: !Ends(s.world.channel[e], id)
    ensures s.world.channel[0].Completed? && s.world.channel[e].Completed? ==>
              s.world.channel[0].key != s.world.channel[e].key
    ensures !(s.world.channel[0].MaintenanceCompleted? && s.world.channel[e].MaintenanceCompleted?)
  {
    var channel := s.world.channel;
    CompletionIsCounted(channel[1..], e - 1);
    assert EventOk(s.world, channel[0]) && EventOk(s.world, channel[e]);
    if channel[0].Completed? {
      TokenMeansActive(s, channel[0].key);
    }
  }

  // ---------------------------------------------------------------- token counts

  lemma MoveKeepsTokens(setup: Setup, s: State, move: Move)
    requires TokenInv(s) && MoveEnabled(setup, s.world, move)
    ensures TokenInv(Next(setup, s, ByOthers(move)))
  {
    var w, w' := s.world, Moved(setup, s.world, move);
    forall key
      ensures Tokens(w', key) == Tokens(w, key)
      ensures MaintenanceJobs(w'.jobs) + MaintenanceCompletions(w'.channel)
              == MaintenanceJobs(w.jobs) + MaintenanceCompletions(w.channel)
    {
      MoveKeepsCounts(setup, w, move, key);
    }
    MoveKeepsCounts(setup, w, move, KeyHash([]));
  }

  lemma MoveKeepsCounts(setup: Setup, w: World, move: Move, key: KeyHash)
    requires MoveEnabled(setup, w, move)
    ensures var w' := Moved(setup, w, move);
            && Tokens(w', key) == Tokens(w, key)
            && MaintenanceJobs(w'.jobs) + MaintenanceCompletions(w'.channel)
               == MaintenanceJobs(w.jobs) + MaintenanceCompletions(w.channel)
  {
    var w' := Moved(setup, w, move);
    match move {
      case Send(request) => CompletionsAppend(w.channel, w'.channel[|w.channel|], key);
      case Observe(at) => JobsRestaged(w.jobs, at, w'.jobs[at].stage, key);
      case Conclude(at, _, _) =>
        JobsWithout(w.jobs, at, key);
        CompletionsAppend(w.channel, w'.channel[|w.channel|], key);
      case ConcludeMaintenance(at, _) =>
        JobsWithout(w.jobs, at, key);
        CompletionsAppend(w.channel, w'.channel[|w.channel|], key);
      case _ =>
    }
  }

  /** A key that becomes active gets its token. */
  lemma DispatchAddsToken(setup: Setup, s: State, key: KeyHash, grown: nat, fate: Fate, other: KeyHash)
    requires Enabled(setup, s, Dispatch(key, grown, fate))
    ensures var w' := Dispatched(setup, s, key, grown, fate).world;
            && Tokens(w', other) == Tokens(s.world, other) + (if other == key && !fate.Unavailable? then 1 else 0)
            && MaintenanceJobs(w'.jobs) == MaintenanceJobs(s.world.jobs)
            && MaintenanceCompletions(w'.channel) == MaintenanceCompletions(s.world.channel)
  {
    JobsAppend(s.world.jobs, OperationJob(key, s.queues[key][0], Ready), other);
    CompletionsAppend(s.world.channel, Completed(key, None), other);
  }

  lemma DispatchKeepsTokens(setup: Setup, s: State, key: KeyHash, grown: nat, fate: Fate)
    requires TokenInv(s) && Enabled(setup, s, Dispatch(key, grown, fate))
    ensures TokenInv(Dispatched(setup, s, key, grown, fate))
  {
    var t := Dispatched(setup, s, key, grown, fate);
    forall other ensures Tokens(t.world, other) == if other in t.active then 1 else 0 {
      DispatchAddsToken(setup, s, key, grown, fate, other);
      TokenMeansActive(s, other);
    }
    DispatchAddsToken(setup, s, key, grown, fate, key);
  }

  lemma AdvanceKeepsCounts(setup: Setup, s: State, grown: nat, fate: Fate, key: KeyHash)
    requires Enabled(setup, s, Advance(grown, fate))
    ensures var w' := Advanced(setup, s, grown, fate).world;
            && Tokens(w', key) == Tokens(s.world, key)
            && MaintenanceJobs(w'.jobs) + MaintenanceCompletions(w'.channel)
               == MaintenanceJobs(s.world.jobs) + MaintenanceCompletions(s.world.channel)
                  + (if RoundOf(s).StartMaintenance? then 1 else 0)
  {
    if s.pending != [] {
      JobsAppend(s.world.jobs, MaintenanceJob(s.pending[0]), key);
      CompletionsAppend(s.world.channel, MaintenanceCompleted(None), key);
    }
  }

  lemma AdvanceKeepsTokens(setup: Setup, s: State, grown: nat, fate: Fate)
    requires TokenInv(s) && Enabled(setup, s, Advance(grown, fate))
    ensures TokenInv(Advanced(setup, s, grown, fate))
  {
    var t := Advanced(setup, s, grown, fate);
    forall key ensures Tokens(t.world, key) == if key in t.active then 1 else 0 {
      AdvanceKeepsCounts(setup, s, grown, fate, key);
      TokenMeansActive(s, key);
    }
    AdvanceKeepsCounts(setup, s, grown, fate, KeyHash([]));
  }

  lemma ReceiveKeepsTokens(setup: Setup, s: State)
    requires TokenInv(s) && Enabled(setup, s, Receive)
    ensures TokenInv(Received(setup, s))
  {
    var t := Received(setup, s);
    forall key ensures Tokens(t.world, key) == if key in t.active then 1 else 0 {
      TokenMeansActive(s, key);
    }
  }

  lemma DrainKeepsTokens(setup: Setup, s: State)
    requires TokenInv(s) && ControlInv(setup, s) && Enabled(setup, s, Drain)
    ensures TokenInv(Drained(setup, s))
  {
    var t := Drained(setup, s);
    forall key ensures Tokens(t.world, key) == if key in t.active then 1 else 0 {
      TokenMeansActive(s, key);
    }
    if s.world.channel != [] {
      CompletionIsCounted(s.world.channel, 0);
    }
  }

  lemma ActionKeepsTokens(setup: Setup, s: State, action: Action)
    requires TokenInv(s) && ControlInv(setup, s) && Enabled(setup, s, action)
    ensures TokenInv(Next(setup, s, ByCoordinator(action)))
  {
    match action {
      case Receive => ReceiveKeepsTokens(setup, s);
      case Handle =>
      case Dispatch(key, grown, fate) => DispatchKeepsTokens(setup, s, key, grown, fate);
      case Skip =>
      case EndFilling =>
      case Advance(grown, fate) => AdvanceKeepsTokens(setup, s, grown, fate);
      case Check(_) =>
      case WriteTerminal =>
      case Drain => DrainKeepsTokens(setup, s);
      case Disconnect =>
    }
  }

  // ---------------------------------------------------------------- what tokens carry

  /** A running request with a token is accounted for. */
  lemma TokensAreActive(t: State, id: Id)
    requires TokenInv(t) && id < |t.world.log| && HasToken(t.world, id)
    requires forall j | 0 <= j < |t.world.jobs| :: JobOk(t.world, t.world.jobs[j])
    requires forall e | 0 <= e < |t.world.channel| :: EventOk(t.world, t.world.channel[e])
    ensures RunsFor(t, t.world.log[id])
  {
    var jobs, channel := t.world.jobs, t.world.channel;
    if job :| job in jobs && job.id == id {
      var j :| 0 <= j < |jobs| && jobs[j] == job;
      JobIsCounted(jobs, j);
      assert JobOk(t.world, jobs[j]);
      if job.OperationJob? {
        TokenMeansActive(t, job.key);
      }
    } else {
      var event :| event in channel && Ends(event, id);
      var e :| 0 <= e < |channel| && channel[e] == event;
      CompletionIsCounted(channel, e);
      assert EventOk(t.world, channel[e]);
      if event.Completed? {
        TokenMeansActive(t, event.key);
      }
    }
  }

  /** Running requests keep their tokens through `t`, and what tokens carry is right there. */
  ghost predicate TokensRight(t: State) {
    && (forall j | 0 <= j < |t.world.jobs| :: JobOk(t.world, t.world.jobs[j]))
    && (forall e | 0 <= e < |t.world.channel| :: EventOk(t.world, t.world.channel[e]))
    && (forall i | 0 <= i < |t.world.log| && t.world.log[i].status.Running? :: HasToken(t.world, i))
  }

  lemma TokensRightSuffices(t: State)
    requires TokenInv(t) && TokensRight(t)
    ensures RunningInv(t)
  {
    forall i | 0 <= i < |t.world.log| && t.world.log[i].status.Running?
      ensures RunsFor(t, t.world.log[i])
    {
      TokensAreActive(t, i);
    }
  }

  /** Steps that touch no token and no running request. */
  lemma RunningFramed(s: State, t: State)
    requires RunningInv(s) && t.world.jobs == s.world.jobs && t.world.channel == s.world.channel
    requires t.world.disk == s.world.disk && |s.world.log| <= |t.world.log|
    requires forall i | 0 <= i < |s.world.log| && s.world.log[i].status.Running? :: t.world.log[i] == s.world.log[i]
    requires forall i | 0 <= i < |t.world.log| && t.world.log[i].status.Running? ::
               i < |s.world.log| && s.world.log[i].status.Running?
    ensures TokensRight(t)
  {
    forall j | 0 <= j < |t.world.jobs| ensures JobOk(t.world, t.world.jobs[j]) {
      assert JobOk(s.world, s.world.jobs[j]);
    }
    forall e | 0 <= e < |t.world.channel| ensures EventOk(t.world, t.world.channel[e]) {
      assert EventOk(s.world, s.world.channel[e]);
    }
  }

  lemma InWithout<T>(items: seq<T>, at: nat)
    requires at < |items|
    ensures forall item | item in items && item != items[at] :: item in Without(items, at)
    ensures forall j | 0 <= j < |items| - 1 :: Without(items, at)[j] == items[if j < at then j else j + 1]
  {
  }

  lemma SendKeepsRunning(setup: Setup, s: State, request: Request)
    requires RunningInv(s) && MoveEnabled(setup, s.world, Send(request))
    ensures TokensRight(Next(setup, s, ByOthers(Send(request))))
  {
    var w, w' := s.world, Moved(setup, s.world, Send(request));
    RunningFramed(s, s.(world := w'.(channel := w.channel)));
    forall i | 0 <= i < |w'.log| && w'.log[i].status.Running? ensures HasToken(w', i) {
      assert HasToken(w, i);
    }
  }

  lemma ObserveKeepsRunning(setup: Setup, s: State, at: nat)
    requires RunningInv(s) && MoveEnabled(setup, s.world, Observe(at))
    ensures TokensRight(Next(setup, s, ByOthers(Observe(at))))
  {
    var w, w' := s.world, Moved(setup, s.world, Observe(at));
    forall j | 0 <= j < |w'.jobs| ensures JobOk(w', w'.jobs[j]) {
      assert JobOk(w, w.jobs[j]);
    }
    forall e | 0 <= e < |w'.channel| ensures EventOk(w', w'.channel[e]) {
      assert EventOk(w, w.channel[e]);
    }
    forall i | 0 <= i < |w'.log| && w'.log[i].status.Running? ensures HasToken(w', i) {
      assert HasToken(w, i);
      if job :| job in w.jobs && job.id == i {
        var j :| 0 <= j < |w.jobs| && w.jobs[j] == job;
        assert w'.jobs[j] in w'.jobs;
      }
    }
  }

  /** A job ends: its request's completion takes over as the token. */
  lemma ConcludeKeepsTokens(w: World, w': World, at: nat, id: Id, ended: Event)
    requires at < |w.jobs| && w.jobs[at].id == id && |w'.log| == |w.log|
    requires w'.jobs == Without(w.jobs, at) && w'.channel == w.channel + [ended]
    requires forall i | 0 <= i < |w.log| && i != id :: w'.log[i].status == w.log[i].status
    requires id < |w'.log| && w'.log[id].status.Running? ==> Ends(ended, id)
    requires forall i | 0 <= i < |w.log| && w.log[i].status.Running? :: HasToken(w, i)
    ensures forall i | 0 <= i < |w'.log| && w'.log[i].status.Running? :: HasToken(w', i)
  {
    InWithout(w.jobs, at);
    forall i | 0 <= i < |w'.log| && w'.log[i].status.Running? ensures HasToken(w', i) {
      if i == id {
        assert w'.channel[|w.channel|] == ended;
        assert ended in w'.channel;
      } else {
        assert HasToken(w, i);
        if job :| job in w.jobs && job.id == i {
          assert job in w'.jobs;
        } else {
          var event :| event in w.channel && Ends(event, i);
          assert event in w'.channel;
        }
      }
    }
  }

  lemma ConcludeKeepsJobs(setup: Setup, s: State, at: nat, after: Option<Blob>, result: Option<OperationResult>)
    requires TokenInv(s) && RunningInv(s) && MoveEnabled(setup, s.world, Conclude(at, after, result))
    ensures var w' := Moved(setup, s.world, Conclude(at, after, result));
            forall j | 0 <= j < |w'.jobs| :: JobOk(w', w'.jobs[j])
  {
    var w, w' := s.world, Moved(setup, s.world, Conclude(at, after, result));
    InWithout(w.jobs, at);
    forall j | 0 <= j < |w'.jobs| ensures JobOk(w', w'.jobs[j]) {
      var k := if j < at then j else j + 1;
      assert JobOk(w, w.jobs[k]);
      JobsAreApart(s, at, k);
    }
  }

  lemma ConcludeKeepsEvents(setup: Setup, s: State, at: nat, after: Option<Blob>, result: Option<OperationResult>)
    requires TokenInv(s) && RunningInv(s) && MoveEnabled(setup, s.world, Conclude(at, after, result))
    ensures var w' := Moved(setup, s.world, Conclude(at, after, result));
            forall e | 0 <= e < |w'.channel| :: EventOk(w', w'.channel[e])
  {
    var w, w' := s.world, Moved(setup, s.world, Conclude(at, after, result));
    assert JobOk(w, w.jobs[at]);
    forall e | 0 <= e < |w'.channel| ensures EventOk(w', w'.channel[e]) {
      if e < |w.channel| {
        assert EventOk(w, w.channel[e]);
        JobsAndCompletionsAreApart(s, at, e);
      }
    }
  }

  lemma ConcludeKeepsRunning(setup: Setup, s: State, at: nat, after: Option<Blob>, result: Option<OperationResult>)
    requires TokenInv(s) && RunningInv(s) && MoveEnabled(setup, s.world, Conclude(at, after, result))
    ensures TokensRight(Next(setup, s, ByOthers(Conclude(at, after, result))))
  {
    var w, w' := s.world, Moved(setup, s.world, Conclude(at, after, result));
    ConcludeKeepsJobs(setup, s, at, after, result);
    ConcludeKeepsEvents(setup, s, at, after, result);
    ConcludeKeepsTokens(w, w', at, w.jobs[at].id, w'.channel[|w.channel|]);
  }

  lemma ConcludeMaintenanceKeepsRunning(setup: Setup, s: State, at: nat, panicked: bool)
    requires TokenInv(s) && RunningInv(s) && MoveEnabled(setup, s.world, ConcludeMaintenance(at, panicked))
    ensures TokensRight(Next(setup, s, ByOthers(ConcludeMaintenance(at, panicked))))
  {
    var w, w' := s.world, Moved(setup, s.world, ConcludeMaintenance(at, panicked));
    var id := w.jobs[at].id;
    assert JobOk(w, w.jobs[at]);
    InWithout(w.jobs, at);
    forall j | 0 <= j < |w'.jobs| ensures JobOk(w', w'.jobs[j]) {
      var k := if j < at then j else j + 1;
      assert JobOk(w, w.jobs[k]);
      JobsAreApart(s, at, k);
    }
    forall e | 0 <= e < |w'.channel| ensures EventOk(w', w'.channel[e]) {
      if e < |w.channel| {
        assert EventOk(w, w.channel[e]);
        JobsAndCompletionsAreApart(s, at, e);
      }
    }
    ConcludeKeepsTokens(w, w', at, id, w'.channel[|w.channel|]);
  }

  lemma MoveKeepsRunning(setup: Setup, s: State, move: Move)
    requires TokenInv(s) && RunningInv(s) && MoveEnabled(setup, s.world, move)
    ensures RunningInv(Next(setup, s, ByOthers(move)))
  {
    var t := Next(setup, s, ByOthers(move));
    MoveKeepsTokens(setup, s, move);
    match move {
      case Send(request) => SendKeepsRunning(setup, s, request);
      case Observe(at) => ObserveKeepsRunning(setup, s, at);
      case Conclude(at, after, result) => ConcludeKeepsRunning(setup, s, at, after, result);
      case ConcludeMaintenance(at, panicked) => ConcludeMaintenanceKeepsRunning(setup, s, at, panicked);
      case _ => RunningFramed(s, t);
    }
    TokensRightSuffices(t);
  }

  lemma ReceiveKeepsRunning(setup: Setup, s: State)
    requires TokenInv(s) && RunningInv(s) && Enabled(setup, s, Receive)
    ensures TokensRight(Received(setup, s))
  {
    var w, w' := s.world, Received(setup, s).world;
    assert EventOk(w, w.channel[0]);
    forall j | 0 <= j < |w'.jobs| ensures JobOk(w', w'.jobs[j]) {
      assert JobOk(w, w.jobs[j]);
      JobsAndCompletionsAreApart(s, j, 0);
    }
    forall e | 0 <= e < |w'.channel| ensures EventOk(w', w'.channel[e]) {
      assert w'.channel[e] == w.channel[e + 1];
      assert EventOk(w, w.channel[e + 1]);
      CompletionsAreApart(s, e + 1);
    }
    assert w.channel == [w.channel[0]] + w'.channel;
    forall i | 0 <= i < |w'.log| && w'.log[i].status.Running? ensures HasToken(w', i) {
      assert HasToken(w, i);
      assert !Ends(w.channel[0], i);
    }
  }

  lemma DispatchKeepsRunning(setup: Setup, s: State, key: KeyHash, grown: nat, fate: Fate)
    requires QueueInv(s) && RunningInv(s) && EffectInv(s) && Enabled(setup, s, Dispatch(key, grown, fate))
    ensures TokensRight(Dispatched(setup, s, key, grown, fate))
  {
    var w, w', id := s.world, Dispatched(setup, s, key, grown, fate).world, s.queues[key][0];
    assert QueueOk(w.log, key, s.queues[key]);
    assert id in s.queues[key];
    assert EffectMatches(w.log[id]);
    forall j | 0 <= j < |w'.jobs| ensures JobOk(w', w'.jobs[j]) {
      if j < |w.jobs| {
        assert JobOk(w, w.jobs[j]);
      }
    }
    forall e | 0 <= e < |w'.channel| ensures EventOk(w', w'.channel[e]) {
      if e < |w.channel| {
        assert EventOk(w, w.channel[e]);
      }
    }
    forall i | 0 <= i < |w'.log| && w'.log[i].status.Running? ensures HasToken(w', i) {
      if i == id {
        assert w'.jobs[|w.jobs|] in w'.jobs;
      } else {
        assert HasToken(w, i);
      }
    }
  }

  lemma AdvanceKeepsRunning(setup: Setup, s: State, grown: nat, fate: Fate)
    requires PendingInv(s) && RunningInv(s) && Enabled(setup, s, Advance(grown, fate))
    ensures TokensRight(Advanced(setup, s, grown, fate))
  {
    var w, w' := s.world, Advanced(setup, s, grown, fate).world;
    if s.pending != [] {
      assert s.pending[0] in s.pending;
    }
    forall j | 0 <= j < |w'.jobs| ensures JobOk(w', w'.jobs[j]) {
      if j < |w.jobs| {
        assert JobOk(w, w.jobs[j]);
      }
    }
    forall e | 0 <= e < |w'.channel| ensures EventOk(w', w'.channel[e]) {
      if e < |w.channel| {
        assert EventOk(w, w.channel[e]);
      }
    }
    forall i | 0 <= i < |w'.log| && w'.log[i].status.Running? ensures HasToken(w', i) {
      if w.log[i].status.Running? {
        assert HasToken(w, i);
      } else {
        assert w'.jobs[|w.jobs|] in w'.jobs;
      }
    }
  }

  lemma DrainKeepsRunning(setup: Setup, s: State)
    requires InboxInv(s) && PendingInv(s) && TokenInv(s) && RunningInv(s) && ControlInv(setup, s)
    requires Enabled(setup, s, Drain)
    ensures TokensRight(Drained(setup, s))
  {
    var w, t := s.world, Drained(setup, s);
    if FrontIsClose(s) {
      assert s.pending[0] in s.pending;
    } else if w.channel != [] && w.channel[0].Requested? {
      assert Inbox(s)[0] == w.channel[0].id;
    }
    NobodyRuns(s);
    if t.world.channel == w.channel {
      RunningFramed(s, t);
    } else {
      RunningFramed(s, t.(world := t.world.(channel := w.channel)));
      assert forall e | 0 <= e < |t.world.channel| :: t.world.channel[e] == w.channel[e + 1];
    }
  }

  /** With nothing active, no request runs. */
  lemma NobodyRuns(s: State)
    requires RunningInv(s) && s.active == {} && !s.maintenanceActive
    ensures forall i | 0 <= i < |s.world.log| :: !s.world.log[i].status.Running?
  {
    forall i | 0 <= i < |s.world.log| ensures !s.world.log[i].status.Running? {
      RunningIsActive(s, i);
    }
  }

  lemma HandleKeepsRunning(setup: Setup, s: State)
    requires InboxInv(s) && RunningInv(s) && Enabled(setup, s, Handle)
    ensures TokensRight(Handled(setup, s))
  {
    HandleKeepsInbox(setup, s);
    RunningFramed(s, Handled(setup, s));
  }

  lemma EndFillingKeepsRunning(setup: Setup, s: State)
    requires DeliveringInv(s) && RunningInv(s) && Enabled(setup, s, EndFilling)
    ensures TokensRight(EndedFilling(setup, s))
  {
    RunningFramed(s, EndedFilling(setup, s));
  }

  lemma ActionKeepsRunning(setup: Setup, s: State, action: Action)
    requires Placed(setup, s) && TokenInv(s) && ControlInv(setup, s) && EffectInv(s) && Enabled(setup, s, action)
    ensures RunningInv(Next(setup, s, ByCoordinator(action)))
  {
    var t := Next(setup, s, ByCoordinator(action));
    ActionKeepsTokens(setup, s, action);
    match action {
      case Receive => ReceiveKeepsRunning(setup, s);
      case Handle => HandleKeepsRunning(setup, s);
      case Dispatch(key, grown, fate) => DispatchKeepsRunning(setup, s, key, grown, fate);
      case EndFilling => EndFillingKeepsRunning(setup, s);
      case Advance(grown, fate) => AdvanceKeepsRunning(setup, s, grown, fate);
      case Drain => DrainKeepsRunning(setup, s);
      case _ => RunningFramed(s, t);
    }
    TokensRightSuffices(t);
  }
}
