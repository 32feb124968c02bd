/** What happens to requests when the coordinator's thread panics: the unwinding drops the coordinator's
    state and then its pool, which joins the workers; after that the lifecycle is `Failed`, and
    `fail_queued_after_coordinator_panic` of `src/engine/scheduler.rs` empties the channel. */
module Panic {
  import opened Invariant
  import opened Operations
  import opened Progress
  import opened Protocol
  import opened Results
  import opened Runs
  import opened StepsPlaces
  import opened StepsTokens

  /** The event carries the reply channel of request `id`. */
  predicate Carries(event: Event, id: Id) {
    match event
    case Requested(sent) => sent == id
    case Completed(_, outcome) => outcome.Some? && outcome.value.0 == id
    case MaintenanceCompleted(report) => report == Some(id)
  }

  ghost predicate Carried(channel: seq<Event>, id: Id) {
    exists e :: 0 <= e < |channel| && Carries(channel[e], id)
  }

  function PanicReply(request: Request): Reply {
    Refused(if request.Close? then ShutdownFailure else EngineFailed)
  }

  ghost predicate Known(w: World, event: Event) {
    match event
    case Requested(id) => id < |w.log|
    case Completed(_, outcome) => outcome.Some? ==> outcome.value.0 < |w.log| && w.log[outcome.value.0].request.Operate?
    case MaintenanceCompleted(report) =>
      report.Some? ==> report.value < |w.log| && w.log[report.value].request.Maintain?
  }

  lemma CarriedSplit(channel: seq<Event>, id: Id)
    requires channel != []
    ensures Carried(channel, id) <==> Carries(channel[0], id) || Carried(channel[1..], id)
  {
    if Carried(channel, id) && !Carries(channel[0], id) {
      var e :| 0 <= e < |channel| && Carries(channel[e], id);
      assert Carries(channel[1..][e - 1], id);
    }
    if Carried(channel[1..], id) {
      var e :| 0 <= e < |channel[1..]| && Carries(channel[1..][e], id);
      assert Carries(channel[e + 1], id);
    }
  }

  /** `fail_queued_after_coordinator_panic`: exactly the requests whose reply channels are in the event
      channel are answered, each with the failure of its kind, and the channel is left empty. */
  method FailQueued(w: World) returns (r: World)
    requires forall e | 0 <= e < |w.channel| :: Known(w, w.channel[e])
    ensures r == w.(log := r.log, channel := []) && |r.log| == |w.log|
    ensures forall i | 0 <= i < |w.log| ::
              r.log[i] == if Carried(w.channel, i) then w.log[i].(status := Replied(PanicReply(w.log[i].request)))
                          else w.log[i]
    ensures forall i | 0 <= i < |w.log| && Carried(w.channel, i) ::
              r.log[i].status
              == (if w.log[i].request.Close? then Replied(Refused(ShutdownFailure)) else Replied(Refused(EngineFailed)))
  {
    r := w;
    ghost var done := [];
    while r.channel != []
      invariant r == w.(log := r.log, channel := r.channel) && |r.log| == |w.log|
      invariant done + r.channel == w.channel
      invariant forall i | 0 <= i < |w.log| ::
                  r.log[i] == if Carried(done, i) then w.log[i].(status := Replied(PanicReply(w.log[i].request)))
                              else w.log[i]
      decreases |r.channel|
    {
      var event := r.channel[0];
      ghost var before := done;
      assert Known(w, w.channel[|done|]);
      done := done + [event];
      forall i ensures Carried(done, i) <==> Carried(before, i) || Carries(event, i) {
        CarriedMore(before, event, i);
      }
      match event {
        case Requested(id) =>
          var reply := if r.log[id].request.Close? then Refused(ShutdownFailure) else Refused(EngineFailed);
          r := r.(log := Marked(r.log, Mark(id, Replied(reply))));
        case Completed(_, outcome) =>
          if outcome.Some? {
            r := r.(log := Marked(r.log, Mark(outcome.value.0, Replied(Refused(EngineFailed)))));
          }
        case MaintenanceCompleted(report) =>
          if report.Some? {
            r := r.(log := Marked(r.log, Mark(report.value, Replied(Refused(EngineFailed)))));
          }
      }
      r := r.(channel := r.channel[1..]);
    }
    assert done == w.channel;
  }

  lemma CarriedMore(channel: seq<Event>, event: Event, id: Id)
    ensures Carried(channel + [event], id) <==> Carried(channel, id) || Carries(event, id)
  {
    var more := channel + [event];
    if Carried(more, id) {
      var e :| 0 <= e < |more| && Carries(more[e], id);
      assert e < |channel| ==> Carries(channel[e], id);
    }
    if Carried(channel, id) {
      var e :| 0 <= e < |channel| && Carries(channel[e], id);
      assert Carries(more[e], id);
    }
    assert Carries(event, id) ==> Carries(more[|channel|], id);
  }

  /** The coordinator holds the reply channel of request `id`. */
  predicate HeldByCoordinator(s: State, id: Id) {
    || id in HandIds(s.control)
    || id in s.pending
    || (exists key | key in s.queues :: id in s.queues[key])
    || (OutcomeInHand(s.control).Some? && OutcomeInHand(s.control).value.0 == id)
  }

  /** A job with the workers holds it. */
  predicate HeldByJob(w: World, id: Id) {
    exists j :: 0 <= j < |w.jobs| && w.jobs[j].id == id
  }

  lemma {:induction false} InChannel(channel: seq<Event>, id: Id)
    requires id in ChannelIds(channel)
    ensures Carried(channel, id)
  {
    if channel == [] {
    } else if channel[0].Requested? && channel[0].id == id {
      assert Carries(channel[0], id);
    } else {
      InChannel(channel[1..], id);
      CarriedSplit(channel, id);
    }
  }

  lemma NobodyIsForgotten(setup: Setup, s: State, id: Id)
    requires Placed(setup, s) && id < |s.world.log| && !s.world.log[id].status.Replied?
    ensures Carried(s.world.channel, id) || HeldByCoordinator(s, id) || HeldByJob(s.world, id)
  {
    var entry := s.world.log[id];
    match entry.status {
      case Waiting =>
        assert Inbox(s)[id - Turned(s)] == id;
        if id !in HandIds(s.control) {
          assert id in ChannelIds(s.world.channel);
          InChannel(s.world.channel, id);
        }
      case Queued => assert InQueue(s.queues, entry, id);
      case Running =>
        assert HasToken(s.world, id);
        if event :| event in s.world.channel && Ends(event, id) {
          var e :| 0 <= e < |s.world.channel| && s.world.channel[e] == event;
          assert Carries(s.world.channel[e], id);
        }
      case _ =>
    }
  }

  /** Wherever the coordinator panics, a request that has no answer yet is carried by the channel, held by
      the coordinator, or held by a job. What becomes of each is followed below. */
  lemma PanicStrandsNobody(setup: Setup, s: State, id: Id)
    requires Reachable(setup, s) && id < |s.world.log| && !s.world.log[id].status.Replied?
    ensures Carried(s.world.channel, id) || HeldByCoordinator(s, id) || HeldByJob(s.world, id)
  {
    ReachableInv(setup, s);
    NobodyIsForgotten(setup, s, id);
  }

  /** And nobody is answered twice: what the channel carries has no answer yet. */
  lemma CarriedIsUnanswered(setup: Setup, s: State, id: Id)
    requires Placed(setup, s) && Carried(s.world.channel, id)
    ensures id < |s.world.log| && !s.world.log[id].status.Replied?
    ensures forall e | 0 <= e < |s.world.channel| :: Known(s.world, s.world.channel[e])
  {
    forall e | 0 <= e < |s.world.channel|
      ensures Known(s.world, s.world.channel[e])
      ensures Carries(s.world.channel[e], id) ==> id < |s.world.log| && !s.world.log[id].status.Replied?
    {
      assert EventOk(s.world, s.world.channel[e]);
      if s.world.channel[e].Requested? {
        RequestedIsInInbox(s, e);
      }
    }
  }

  /** Nor does the channel carry anything twice. */
  lemma CarriedOnce(setup: Setup, s: State, e: nat, f: nat, id: Id)
    requires Reachable(setup, s) && e < f < |s.world.channel| && Carries(s.world.channel[e], id)
    ensures !Carries(s.world.channel[f], id)
  {
    ReachableInv(setup, s);
    var channel := s.world.channel;
    assert EventOk(s.world, channel[e]) && EventOk(s.world, channel[f]);
    if channel[e].Requested? {
      RequestedIsInInbox(s, e);
      if channel[f] == channel[e] {
        RequestedTwice(s, e, f);
      }
    } else if channel[e].Completed? {
      CountedTwice(channel, e, f, channel[e].key);
      TokenMeansActive(s, channel[e].key);
    } else {
      CountedTwice(channel, e, f, KeyHash([]));
    }
    if channel[f].Requested? {
      RequestedIsInInbox(s, f);
    }
  }

  lemma RequestedTwice(s: State, e: nat, f: nat)
    requires InboxInv(s) && e < f < |s.world.channel| && s.world.channel[e].Requested?
    ensures s.world.channel[f] != s.world.channel[e]
  {
    ChannelIncreases(s);
    if s.world.channel[f] == s.world.channel[e] {
      var p, q := ListedTwice(s.world.channel, e, f);
    }
  }

  lemma ChannelIncreases(s: State)
    requires InboxInv(s)
    ensures Increasing(ChannelIds(s.world.channel))
  {
    var ids, hand := ChannelIds(s.world.channel), |HandIds(s.control)|;
    assert forall p | 0 <= p < |ids| :: ids[p] == Inbox(s)[hand + p];
  }

  lemma {:induction false} ListedTwice(channel: seq<Event>, e: nat, f: nat) returns (p: nat, q: nat)
    requires e < f < |channel| && channel[e].Requested? && channel[f] == channel[e]
    ensures p < q < |ChannelIds(channel)| && ChannelIds(channel)[p] == ChannelIds(channel)[q]
  {
    if e == 0 {
      RequestedIsListed(channel[1..], f - 1);
      var r :| 0 <= r < |ChannelIds(channel[1..])| && ChannelIds(channel[1..])[r] == channel[e].id;
      p, q := 0, r + 1;
    } else {
      p, q := ListedTwice(channel[1..], e - 1, f - 1);
      if channel[0].Requested? {
        p, q := p + 1, q + 1;
      }
    }
  }

  lemma {:induction false} CountedTwice(channel: seq<Event>, e: nat, f: nat, key: KeyHash)
    requires e < f < |channel|
    ensures Completes(channel[e], key) && Completes(channel[f], key) ==> CompletionsFor(channel, key) >= 2
    ensures channel[e].MaintenanceCompleted? && channel[f].MaintenanceCompleted? ==>
              MaintenanceCompletions(channel) >= 2
  {
    if e == 0 {
      CompletionIsCounted(channel[1..], f - 1);
    } else {
      CountedTwice(channel[1..], e - 1, f - 1, key);
    }
  }

  lemma RequestedIsInInbox(s: State, e: nat)
    requires InboxInv(s) && e < |s.world.channel| && s.world.channel[e].Requested?
    ensures s.world.channel[e].id < |s.world.log| && s.world.log[s.world.channel[e].id].status.Waiting?
  {
    RequestedIsListed(s.world.channel, e);
    var id := s.world.channel[e].id;
    assert id in Inbox(s);
    var p :| 0 <= p < |Inbox(s)| && Inbox(s)[p] == id;
  }

  lemma {:induction false} RequestedIsListed(channel: seq<Event>, e: nat)
    requires e < |channel| && channel[e].Requested?
    ensures channel[e].id in ChannelIds(channel)
  {
    if e > 0 {
      RequestedIsListed(channel[1..], e - 1);
    }
  }

  // ---------------------------------------------------------------- the unwinding

  /** Unwinding drops the reply channels that the coordinator holds: its event, its queues, what it has held
      back, and the result it was about to deliver. */
  function Unwound(s: State, w: World): World {
    w.(log := seq(|w.log|, i requires 0 <= i < |w.log| =>
                    if HeldByCoordinator(s, i) then w.log[i].(status := Replied(Dropped)) else w.log[i]))
  }

  /** What the coordinator holds, no job holds, and nobody has answered. */
  lemma HeldStatus(setup: Setup, s: State, id: Id)
    requires Placed(setup, s) && HeldByCoordinator(s, id)
    ensures id < |s.world.log| && !s.world.log[id].status.Running? && !s.world.log[id].status.Replied?
  {
    if id in HandIds(s.control) {
      assert Inbox(s)[0] == id;
    }
    if key :| key in s.queues && id in s.queues[key] {
      assert QueueOk(s.world.log, key, s.queues[key]);
    }
  }

  /** An entry that the coordinator does not hold is replaced, or added, with the same effect. */
  lemma ReplacingCommutes(s: State, w: World, id: Id, entry: Entry)
    requires !HeldByCoordinator(s, id) && id <= |w.log|
    ensures id < |w.log| ==> Unwound(s, w).log[id := entry] == Unwound(s, w.(log := w.log[id := entry])).log
    ensures id == |w.log| ==> Unwound(s, w).log + [entry] == Unwound(s, w.(log := w.log + [entry])).log
  {
  }

  lemma SendingCommutes(setup: Setup, s: State, request: Request)
    requires Placed(setup, s) && MoveEnabled(setup, s.world, Send(request))
    ensures Moved(setup, Unwound(s, s.world), Send(request)) == Unwound(s, Moved(setup, s.world, Send(request)))
  {
    if HeldByCoordinator(s, |s.world.log|) {
      HeldStatus(setup, s, |s.world.log|);
    }
    ReplacingCommutes(s, s.world, |s.world.log|, Entry(request, Waiting, None));
  }

  lemma JobIsNotHeld(setup: Setup, s: State, at: nat)
    requires Placed(setup, s) && at < |s.world.jobs|
    ensures var id := s.world.jobs[at].id;
            !HeldByCoordinator(s, id) && id < |s.world.log| && Unwound(s, s.world).log[id] == s.world.log[id]
  {
    assert JobOk(s.world, s.world.jobs[at]);
    if HeldByCoordinator(s, s.world.jobs[at].id) {
      HeldStatus(setup, s, s.world.jobs[at].id);
    }
  }

  lemma ConcludingCommutes(setup: Setup, s: State, move: Move)
    requires Placed(setup, s) && MoveEnabled(setup, s.world, move) && move.Conclude?
    ensures MoveEnabled(setup, Unwound(s, s.world), move)
    ensures Moved(setup, Unwound(s, s.world), move) == Unwound(s, Moved(setup, s.world, move))
  {
    JobIsNotHeld(setup, s, move.job);
    var id := s.world.jobs[move.job].id;
    ReplacingCommutes(s, s.world, id, Moved(setup, s.world, move).log[id]);
  }

  lemma ConcludingMaintenanceCommutes(setup: Setup, s: State, move: Move)
    requires Placed(setup, s) && MoveEnabled(setup, s.world, move) && move.ConcludeMaintenance?
    ensures MoveEnabled(setup, Unwound(s, s.world), move)
    ensures Moved(setup, Unwound(s, s.world), move) == Unwound(s, Moved(setup, s.world, move))
  {
    JobIsNotHeld(setup, s, move.job);
    var id := s.world.jobs[move.job].id;
    ReplacingCommutes(s, s.world, id, Moved(setup, s.world, move).log[id]);
  }

  lemma EnabledAlike(setup: Setup, s: State, move: Move)
    requires MoveEnabled(setup, Unwound(s, s.world), move)
    ensures MoveEnabled(setup, s.world, move)
  {
  }

  /** The workers do not notice the unwinding: their steps, and submitters', lead from the unwound state to
      the unwound state. The pool that is dropped takes no new jobs, but joins its workers, which finish
      theirs. */
  lemma UnwindingCommutes(setup: Setup, s: State, move: Move)
    requires Placed(setup, s) && MoveEnabled(setup, s.world, move)
    ensures MoveEnabled(setup, Unwound(s, s.world), move)
    ensures Moved(setup, Unwound(s, s.world), move) == Unwound(s, Moved(setup, s.world, move))
  {
    match move {
      case Send(request) => SendingCommutes(setup, s, request);
      case CloneHandle =>
      case DropHandle =>
      case Observe(_) =>
      case Conclude(_, _, _) => ConcludingCommutes(setup, s, move);
      case ConcludeMaintenance(_, _) => ConcludingMaintenanceCommutes(setup, s, move);
    }
  }

  lemma SameUnwinding(s: State, t: State)
    requires t == s.(world := t.world)
    ensures Unwound(t, t.world) == Unwound(s, t.world)
  {
    assert forall id :: HeldByCoordinator(s, id) <==> HeldByCoordinator(t, id);
  }

  /** Moves of submitters and workers alone. */
  ghost predicate AreMoves(setup: Setup, w: World, moves: seq<Move>)
    decreases |moves|
  {
    moves == [] || (MoveEnabled(setup, w, moves[0]) && AreMoves(setup, Moved(setup, w, moves[0]), moves[1..]))
  }

  ghost function AfterMoves(setup: Setup, w: World, moves: seq<Move>): World
    requires AreMoves(setup, w, moves)
    decreases |moves|
  {
    if moves == [] then w else AfterMoves(setup, Moved(setup, w, moves[0]), moves[1..])
  }

  lemma MoveUnderPanic(setup: Setup, s: State, move: Move) returns (t: State)
    requires Reachable(setup, s) && MoveEnabled(setup, Unwound(s, s.world), move)
    ensures Reachable(setup, t) && t == s.(world := t.world)
    ensures Moved(setup, Unwound(s, s.world), move) == Unwound(t, t.world)
  {
    ReachableInv(setup, s);
    EnabledAlike(setup, s, move);
    UnwindingCommutes(setup, s, move);
    StepStaysReachable(setup, s, ByOthers(move));
    t := s.(world := Moved(setup, s.world, move));
    SameUnwinding(s, t);
  }

  /** Whatever happens while the workers are joined might as well have happened before the panic. */
  lemma {:induction false} PanicMightHaveComeLater(setup: Setup, s: State, w: World, moves: seq<Move>)
    returns (t: State)
    requires Reachable(setup, s) && w == Unwound(s, s.world) && AreMoves(setup, w, moves)
    ensures Reachable(setup, t) && t == s.(world := t.world)
    ensures AfterMoves(setup, w, moves) == Unwound(t, t.world)
    decreases |moves|
  {
    if moves == [] {
      t := s;
    } else {
      var next := MoveUnderPanic(setup, s, moves[0]);
      t := PanicMightHaveComeLater(setup, next, Moved(setup, w, moves[0]), moves[1..]);
    }
  }

  // ---------------------------------------------------------------- everybody gets an answer

  /** Once the workers are joined, a request has its answer, or else its reply channel is in the channel. */
  lemma JoinedSplits(setup: Setup, t: State, id: Id)
    requires Placed(setup, t) && t.world.jobs == [] && id < |t.world.log|
    ensures Unwound(t, t.world).log[id].status.Replied? <==> !Carried(t.world.channel, id)
  {
    if Carried(t.world.channel, id) {
      CarriedIsUnanswered(setup, t, id);
      CarriedIsNotHeld(setup, t, id);
    } else if !t.world.log[id].status.Replied? {
      NobodyIsForgotten(setup, t, id);
    }
  }

  /** What the channel carries, the coordinator does not hold as well. */
  lemma CarriedIsNotHeld(setup: Setup, t: State, id: Id)
    requires Placed(setup, t) && Carried(t.world.channel, id)
    ensures !HeldByCoordinator(t, id)
  {
    var e :| 0 <= e < |t.world.channel| && Carries(t.world.channel[e], id);
    assert EventOk(t.world, t.world.channel[e]);
    if HeldByCoordinator(t, id) {
      HeldStatus(setup, t, id);
      if t.world.channel[e].Requested? {
        RequestedIsInInbox(t, e);
        HandIsNotCarried(t, e);
      }
    }
  }

  lemma HandIsNotCarried(s: State, e: nat)
    requires InboxInv(s) && e < |s.world.channel| && s.world.channel[e].Requested?
    ensures s.world.channel[e].id !in HandIds(s.control)
  {
    RequestedIsListed(s.world.channel, e);
    var ids, id := ChannelIds(s.world.channel), s.world.channel[e].id;
    var p :| 0 <= p < |ids| && ids[p] == id;
    assert Inbox(s)[|HandIds(s.control)| + p] == id;
    assert HandIds(s.control) != [] ==> Inbox(s)[0] == HandIds(s.control)[0];
  }

  /** How request `i` ends if the coordinator panics in a state like `t`, without jobs. */
  ghost function Fallen(t: State, i: Id): Entry
    requires i < |t.world.log|
  {
    var entry := t.world.log[i];
    entry.(status := if entry.status.Replied? then entry.status
                     else if HeldByCoordinator(t, i) then Replied(Dropped)
                     else Replied(PanicReply(entry.request)))
  }

  /** What the threads share after that. */
  ghost predicate FallsTo(t: State, r: World) {
    && t.world.jobs == []
    && r == t.world.(log := r.log, channel := [], lifecycle := Failed)
    && |r.log| == |t.world.log| && forall i | 0 <= i < |r.log| :: r.log[i] == Fallen(t, i)
  }

  /** What happens to a store whose coordinator panics in any reachable state: the unwinding drops what the
      coordinator holds and joins the workers, while submitters and workers take any steps; then the
      lifecycle is `Failed`, and the channel is emptied. After that every request has its answer: one that
      it had before, a dropped reply channel, or the failure of its kind; and nothing can be sent any more.
      The files are those of the plain store, as after any run. */
  method ComeDown(setup: Setup, ghost s: State, ghost moves: seq<Move>, w: World) returns (r: World, ghost t: State)
    requires Reachable(setup, s) && AreMoves(setup, Unwound(s, s.world), moves)
    requires w == AfterMoves(setup, Unwound(s, s.world), moves) && w.jobs == []
    ensures Reachable(setup, t) && t == s.(world := t.world) && t.world.jobs == []
    ensures FallsTo(t, r)
    ensures forall i | 0 <= i < |t.world.log| :: EndsPlainly(s, t, r, i)
    ensures forall request :: !MoveEnabled(setup, r, Send(request))
  {
    t := PanicMightHaveComeLater(setup, s, Unwound(s, s.world), moves);
    r := FailAll(setup, t, w);
    NothingIsSent(setup, r);
    forall i | 0 <= i < |t.world.log| ensures EndsPlainly(s, t, r, i) {
      FallIsPlain(s, t, r, i);
    }
  }

  /** What request `i` is answered: what it was answered before; nothing, on a dropped channel, if the
      coordinator held it; and otherwise `ShutdownFailure` for a close and `EngineFailed` for all else. */
  ghost predicate EndsPlainly(s: State, t: State, r: World, i: Id)
    requires i < |t.world.log|
  {
    && i < |r.log| && r.log[i].request == t.world.log[i].request && r.log[i].effect == t.world.log[i].effect
    && (t.world.log[i].status.Replied? ==> r.log[i].status == t.world.log[i].status)
    && (!t.world.log[i].status.Replied? && HeldByCoordinator(s, i) ==> r.log[i].status == Replied(Dropped))
    && (!t.world.log[i].status.Replied? && !HeldByCoordinator(s, i) && t.world.log[i].request.Close? ==>
          r.log[i].status == Replied(Refused(ShutdownFailure)))
    && (!t.world.log[i].status.Replied? && !HeldByCoordinator(s, i) && !t.world.log[i].request.Close? ==>
          r.log[i].status == Replied(Refused(EngineFailed)))
  }

  lemma FallIsPlain(s: State, t: State, r: World, i: Id)
    requires FallsTo(t, r) && t == s.(world := t.world) && i < |t.world.log|
    ensures EndsPlainly(s, t, r, i)
  {
    assert r.log[i] == Fallen(t, i);
    assert HeldByCoordinator(t, i) <==> HeldByCoordinator(s, i);
  }

  /** What is left of the coordinator's thread once its workers are joined. */
  method FailAll(setup: Setup, ghost t: State, w: World) returns (r: World)
    requires Reachable(setup, t) && t.world.jobs == [] && w == Unwound(t, t.world)
    ensures FallsTo(t, r)
  {
    StillKnown(setup, t, w, w.(lifecycle := Failed));
    r := FailQueued(w.(lifecycle := Failed));
    AllEndAs(setup, t, w, r);
  }

  lemma NothingIsSent(setup: Setup, w: World)
    requires w.lifecycle.Failed?
    ensures forall request :: !MoveEnabled(setup, w, Send(request))
  {
  }

  lemma AllAreKnown(setup: Setup, t: State, w: World)
    requires Placed(setup, t) && w == Unwound(t, t.world)
    ensures forall e | 0 <= e < |w.channel| :: Known(w, w.channel[e])
  {
    forall e | 0 <= e < |w.channel| ensures Known(w, w.channel[e]) {
      assert EventOk(t.world, t.world.channel[e]);
      if w.channel[e].Requested? {
        RequestedIsInInbox(t, e);
      }
    }
  }

  lemma StillKnown(setup: Setup, t: State, w: World, failed: World)
    requires Reachable(setup, t) && w == Unwound(t, t.world) && failed == w.(lifecycle := Failed)
    ensures forall e | 0 <= e < |failed.channel| :: Known(failed, failed.channel[e])
  {
    ReachableInv(setup, t);
    AllAreKnown(setup, t, w);
    forall e | 0 <= e < |failed.channel| ensures Known(failed, failed.channel[e]) {
      assert Known(w, w.channel[e]);
    }
  }

  lemma EndsAs(setup: Setup, t: State, w: World, r: World, i: Id)
    requires Placed(setup, t) && t.world.jobs == [] && i < |t.world.log| == |r.log|
    requires w == Unwound(t, t.world)
    requires r.log[i] == if Carried(w.channel, i) then w.log[i].(status := Replied(PanicReply(w.log[i].request)))
                         else w.log[i]
    ensures r.log[i] == Fallen(t, i)
  {
    JoinedSplits(setup, t, i);
    if HeldByCoordinator(t, i) {
      HeldStatus(setup, t, i);
    }
    if Carried(t.world.channel, i) {
      CarriedIsUnanswered(setup, t, i);
      CarriedIsNotHeld(setup, t, i);
    }
  }

  lemma AllEndAs(setup: Setup, t: State, w: World, r: World)
    requires Reachable(setup, t) && t.world.jobs == [] && w == Unwound(t, t.world) && |r.log| == |w.log|
    requires forall i | 0 <= i < |w.log| ::
               r.log[i] == if Carried(w.channel, i) then w.log[i].(status := Replied(PanicReply(w.log[i].request)))
                           else w.log[i]
    ensures forall i | 0 <= i < |r.log| :: r.log[i] == Fallen(t, i)
  {
    ReachableInv(setup, t);
    forall i | 0 <= i < |r.log| ensures r.log[i] == Fallen(t, i) {
      EndsAs(setup, t, w, r, i);
    }
  }

  /** Joining the workers waits for stalled callers only: every other worker with a job can go on to its
      result; and by `StepCosts` each step lowers the potential. */
  lemma JoiningGoesOn(setup: Setup, s: State, moves: seq<Move>, w: World, j: nat, stalled: set<Id>)
    returns (move: Move)
    requires Reachable(setup, s) && MayEnd(setup) && AreMoves(setup, Unwound(s, s.world), moves)
    requires w == AfterMoves(setup, Unwound(s, s.world), moves)
    requires j < |w.jobs| && !StalledJob(w.jobs[j], stalled)
    ensures MoveEnabled(setup, w, move) && IsFree(w, ByOthers(move), stalled)
    ensures move.Observe? || (move.Conclude? && move.result.Some?) || (move.ConcludeMaintenance? && !move.panicked)
  {
    var t := PanicMightHaveComeLater(setup, s, Unwound(s, s.world), moves);
    ReachableInv(setup, t);
    move := WorkerGoesOn(setup, t, j, stalled);
    UnwindingCommutes(setup, t, move);
  }
}
