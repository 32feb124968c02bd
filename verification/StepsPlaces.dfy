/** Every step keeps track of where each request is: inbox, pending, queues. */
module StepsPlaces {
  import opened Invariant
  import opened Operations
  import opened Protocol
  import opened Results

  lemma {:induction false} ChannelIdsAppend(channel: seq<Event>, event: Event)
    ensures ChannelIds(channel + [event])
            == ChannelIds(channel) + (if event.Requested? then [event.id] else [])
  {
    if channel == [] {
      assert channel + [event] == [event];
    } else {
      ChannelIdsAppend(channel[1..], event);
      assert (channel + [event])[1..] == channel[1..] + [event];
    }
  }

  /** The groups that say which status a request in a given place has. */
  ghost predicate Placed(setup: Setup, s: State) {
    InboxInv(s) && PendingInv(s) && QueueInv(s) && RunningInv(s) && DeliveringInv(s)
  }

  lemma MoveKeepsInbox(setup: Setup, s: State, move: Move)
    requires InboxInv(s) && RunningInv(s) && MoveEnabled(setup, s.world, move)
    ensures InboxInv(Next(setup, s, ByOthers(move)))
  {
    var w, w' := s.world, Moved(setup, s.world, move);
    var s' := Next(setup, s, ByOthers(move));
    match move {
      case Send(request) =>
        ChannelIdsAppend(w.channel, Requested(|w.log|));
        assert Inbox(s') == Inbox(s) + [|w.log|];
      case CloneHandle =>
      case DropHandle =>
      case Observe(at) =>
      case Conclude(at, after, result) =>
        ChannelIdsAppend(w.channel, w'.channel[|w.channel|]);
        assert JobOk(w, w.jobs[at]);
        assert Inbox(s') == Inbox(s);
      case ConcludeMaintenance(at, _) =>
        ChannelIdsAppend(w.channel, w'.channel[|w.channel|]);
        assert JobOk(w, w.jobs[at]);
        assert Inbox(s') == Inbox(s);
    }
  }

  /** What has become of the requests and of the inbox, whichever arm it was: at most one request is marked,
      and it is the one that leaves the inbox, or one turned to before. */
  lemma InboxTail(s: State, t: State, mark: Mark, count: nat)
    requires InboxInv(s) && count <= 1 && count <= |Inbox(s)|
    requires mark.Mark? ==> mark.id < |s.world.log| && !mark.status.Waiting?
    requires count == 0 ==> mark.Unmarked? || mark.id < Turned(s)
    requires count == 1 ==> mark.Mark? && mark.id == Inbox(s)[0]
    requires t.world.log == Marked(s.world.log, mark) && Inbox(t) == Inbox(s)[count..]
    ensures InboxInv(t)
  {
  }

  lemma ReceiveKeepsInbox(setup: Setup, s: State)
    requires InboxInv(s) && RunningInv(s) && Enabled(setup, s, Receive)
    ensures InboxInv(Received(setup, s))
  {
    var t := Received(setup, s);
    assert EventOk(s.world, s.world.channel[0]);
    assert Inbox(t) == Inbox(s);
    InboxTail(s, t, ReceiveMark(s.world.channel[0]), 0);
  }

  lemma HandleKeepsInbox(setup: Setup, s: State)
    requires InboxInv(s) && Enabled(setup, s, Handle)
    ensures InboxInv(Handled(setup, s))
    ensures s.control.id == Turned(s)
  {
    var t := Handled(setup, s);
    assert Inbox(s)[0] == s.control.id;
    assert Inbox(t) == Inbox(s)[1..];
    InboxTail(s, t, Mark(s.control.id, HandleStatus(s, s.world.log[s.control.id].request)), 1);
  }

  lemma DispatchKeepsInbox(setup: Setup, s: State, key: KeyHash, grown: nat, fate: Fate)
    requires InboxInv(s) && QueueInv(s) && Enabled(setup, s, Dispatch(key, grown, fate))
    ensures InboxInv(Dispatched(setup, s, key, grown, fate))
  {
    var t := Dispatched(setup, s, key, grown, fate);
    assert QueueOk(s.world.log, key, s.queues[key]);
    assert s.queues[key][0] in s.queues[key];
    ChannelIdsAppend(s.world.channel, Completed(key, None));
    assert Inbox(t) == Inbox(s);
    InboxTail(s, t, Mark(s.queues[key][0], FateStatus(fate)), 0);
  }

  lemma AdvanceKeepsInbox(setup: Setup, s: State, grown: nat, fate: Fate)
    requires InboxInv(s) && PendingInv(s) && Enabled(setup, s, Advance(grown, fate))
    ensures InboxInv(Advanced(setup, s, grown, fate))
  {
    var t := Advanced(setup, s, grown, fate);
    ChannelIdsAppend(s.world.channel, MaintenanceCompleted(None));
    assert Inbox(t) == Inbox(s);
    if RoundOf(s).Stay? {
      InboxTail(s, t, Unmarked, 0);
    } else {
      assert s.pending[0] in s.pending;
      InboxTail(s, t, Mark(s.pending[0], RoundStatus(RoundOf(s), fate)), 0);
    }
  }

  lemma DrainKeepsInbox(setup: Setup, s: State)
    requires InboxInv(s) && PendingInv(s) && Enabled(setup, s, Drain)
    ensures InboxInv(Drained(setup, s))
  {
    var t, mark := Drained(setup, s), DrainMark(s, s.control.ok);
    if FrontIsClose(s) {
      assert s.pending[0] in s.pending;
      InboxTail(s, t, mark, 0);
    } else if s.world.channel != [] && s.world.channel[0].Requested? {
      assert Inbox(s) == [s.world.channel[0].id] + Inbox(t);
      InboxTail(s, t, mark, 1);
    } else {
      InboxTail(s, t, mark, 0);
    }
  }

  lemma EndFillingKeepsInbox(setup: Setup, s: State)
    requires InboxInv(s) && DeliveringInv(s) && Enabled(setup, s, EndFilling)
    ensures InboxInv(EndedFilling(setup, s))
  {
    var t := EndedFilling(setup, s);
    assert Inbox(t) == Inbox(s);
    InboxTail(s, t, EndFillingMark(s.control.next), 0);
  }

  lemma ActionKeepsInbox(setup: Setup, s: State, action: Action)
    requires Placed(setup, s) && Enabled(setup, s, action)
    ensures InboxInv(Next(setup, s, ByCoordinator(action)))
  {
    match action {
      case Receive => ReceiveKeepsInbox(setup, s);
      case Handle => HandleKeepsInbox(setup, s);
      case Dispatch(key, grown, fate) => DispatchKeepsInbox(setup, s, key, grown, fate);
      case Skip =>
      case EndFilling => EndFillingKeepsInbox(setup, s);
      case Advance(grown, fate) => AdvanceKeepsInbox(setup, s, grown, fate);
      case Check(_) =>
      case WriteTerminal =>
      case Drain => DrainKeepsInbox(setup, s);
      case Disconnect =>
    }
  }

  // ---------------------------------------------------------------- pending

  lemma MoveKeepsPending(setup: Setup, s: State, move: Move)
    requires PendingInv(s) && RunningInv(s) && MoveEnabled(setup, s.world, move)
    ensures PendingInv(Next(setup, s, ByOthers(move)))
  {
    if move.Conclude? || move.ConcludeMaintenance? {
      assert JobOk(s.world, s.world.jobs[move.job]);
    }
  }

  lemma TailOfIncreasing(ids: seq<Id>)
    requires Increasing(ids) && ids != []
    ensures Increasing(ids[1..]) && ids[0] !in ids[1..]
    ensures forall id :: id in ids <==> id == ids[0] || id in ids[1..]
  {
    assert ids == [ids[0]] + ids[1..];
  }

  /** A newly held-back request goes behind what is held back. */
  lemma PendingAppended(s: State, t: State, id: Id)
    requires PendingInv(s) && id < |s.world.log| && (forall p | 0 <= p < |s.pending| :: s.pending[p] < id)
    requires t.world.log == Marked(s.world.log, Mark(id, Deferred)) && t.pending == s.pending + [id]
    ensures PendingInv(t)
  {
  }

  /** A mark on a request that is not held back, and is not held back now. */
  lemma PendingMarked(s: State, t: State, id: Id, status: Status)
    requires PendingInv(s) && id < |s.world.log| && !s.world.log[id].status.Deferred? && !status.Deferred?
    requires t.world.log == Marked(s.world.log, Mark(id, status)) && t.pending == s.pending
    ensures PendingInv(t)
  {
  }

  lemma HandIsLast(s: State)
    requires InboxInv(s) && PendingInv(s) && s.control.Handling?
    ensures s.control.id < |s.world.log| && s.world.log[s.control.id].status.Waiting?
    ensures forall p | 0 <= p < |s.pending| :: s.pending[p] < s.control.id
  {
    assert Inbox(s)[0] == s.control.id == Turned(s);
    forall p | 0 <= p < |s.pending| ensures s.pending[p] < s.control.id {
      assert s.pending[p] in s.pending;
    }
  }

  lemma HandleKeepsPending(setup: Setup, s: State)
    requires InboxInv(s) && PendingInv(s) && Enabled(setup, s, Handle)
    ensures PendingInv(Handled(setup, s))
  {
    HandIsLast(s);
    var status := HandleStatus(s, s.world.log[s.control.id].request);
    if status.Deferred? {
      PendingAppended(s, Handled(setup, s), s.control.id);
    } else {
      PendingMarked(s, Handled(setup, s), s.control.id, status);
    }
  }

  lemma AdvanceKeepsPending(setup: Setup, s: State, grown: nat, fate: Fate)
    requires PendingInv(s) && Enabled(setup, s, Advance(grown, fate))
    ensures PendingInv(Advanced(setup, s, grown, fate))
  {
    if s.pending != [] {
      TailOfIncreasing(s.pending);
    }
  }

  lemma DrainKeepsPending(setup: Setup, s: State)
    requires InboxInv(s) && PendingInv(s) && Enabled(setup, s, Drain)
    ensures PendingInv(Drained(setup, s))
  {
    if FrontIsClose(s) {
      TailOfIncreasing(s.pending);
    } else if s.world.channel != [] && s.world.channel[0].Requested? {
      assert Inbox(s)[0] == s.world.channel[0].id;
    }
  }

  lemma ReceiveKeepsPending(setup: Setup, s: State)
    requires PendingInv(s) && RunningInv(s) && Enabled(setup, s, Receive)
    ensures PendingInv(Received(setup, s))
  {
    assert EventOk(s.world, s.world.channel[0]);
  }

  lemma DispatchKeepsPending(setup: Setup, s: State, key: KeyHash, grown: nat, fate: Fate)
    requires PendingInv(s) && QueueInv(s) && Enabled(setup, s, Dispatch(key, grown, fate))
    ensures PendingInv(Dispatched(setup, s, key, grown, fate))
  {
    assert QueueOk(s.world.log, key, s.queues[key]);
    assert s.queues[key][0] in s.queues[key];
  }

  lemma EndFillingKeepsPending(setup: Setup, s: State)
    requires PendingInv(s) && DeliveringInv(s) && Enabled(setup, s, EndFilling)
    ensures PendingInv(EndedFilling(setup, s))
  {
  }

  lemma ActionKeepsPending(setup: Setup, s: State, action: Action)
    requires Placed(setup, s) && Enabled(setup, s, action)
    ensures PendingInv(Next(setup, s, ByCoordinator(action)))
  {
    match action {
      case Receive => ReceiveKeepsPending(setup, s);
      case Handle => HandleKeepsPending(setup, s);
      case Dispatch(key, grown, fate) => DispatchKeepsPending(setup, s, key, grown, fate);
      case Skip =>
      case EndFilling => EndFillingKeepsPending(setup, s);
      case Advance(grown, fate) => AdvanceKeepsPending(setup, s, grown, fate);
      case Check(_) =>
      case WriteTerminal =>
      case Drain => DrainKeepsPending(setup, s);
      case Disconnect =>
    }
  }

  // ---------------------------------------------------------------- queues

  /** Changes that leave every queued entry alone leave the queues right. */
  lemma QueuesFramed(s: State, t: State)
    requires QueueInv(s) && t.queues == s.queues && |s.world.log| <= |t.world.log|
    requires forall i | 0 <= i < |t.world.log| && t.world.log[i].status.Queued? ::
               i < |s.world.log| && s.world.log[i].status.Queued? && t.world.log[i].request == s.world.log[i].request
    requires forall i | 0 <= i < |s.world.log| && s.world.log[i].status.Queued? :: t.world.log[i] == s.world.log[i]
    ensures QueueInv(t)
  {
    forall key | key in t.queues ensures QueueOk(t.world.log, key, t.queues[key]) {
      assert QueueOk(s.world.log, key, s.queues[key]);
    }
    forall i | 0 <= i < |t.world.log| && t.world.log[i].status.Queued?
      ensures InQueue(t.queues, t.world.log[i], i)
    {
      assert InQueue(s.queues, s.world.log[i], i);
    }
  }

  /** A newly queued request goes behind what its queue holds. */
  lemma PushKeepsQueues(s: State, t: State, key: KeyHash, id: Id)
    requires QueueInv(s) && OfKey(s.world.log, id, key) && !s.world.log[id].status.Queued?
    requires forall i | 0 <= i < |s.world.log| && s.world.log[i].status.Queued? :: i < id
    requires t.world.log == Marked(s.world.log, Mark(id, Queued)) && t.queues == Push(s.queues, key, id)
    ensures QueueInv(t)
  {
    forall k | k in t.queues ensures QueueOk(t.world.log, k, t.queues[k]) {
      if k in s.queues {
        assert QueueOk(s.world.log, k, s.queues[k]);
        assert forall p | 0 <= p < |s.queues[k]| :: s.queues[k][p] in s.queues[k];
      }
    }
    forall i | 0 <= i < |t.world.log| && t.world.log[i].status.Queued?
      ensures InQueue(t.queues, t.world.log[i], i)
    {
      if i != id {
        assert InQueue(s.queues, s.world.log[i], i);
      }
    }
  }

  lemma MoveKeepsQueues(setup: Setup, s: State, move: Move)
    requires QueueInv(s) && RunningInv(s) && MoveEnabled(setup, s.world, move)
    ensures QueueInv(Next(setup, s, ByOthers(move)))
  {
    if move.Conclude? || move.ConcludeMaintenance? {
      assert JobOk(s.world, s.world.jobs[move.job]);
    }
    QueuesFramed(s, Next(setup, s, ByOthers(move)));
  }

  lemma HandleKeepsQueues(setup: Setup, s: State)
    requires InboxInv(s) && QueueInv(s) && Enabled(setup, s, Handle)
    ensures QueueInv(Handled(setup, s))
  {
    HandleKeepsInbox(setup, s);
    var t, request := Handled(setup, s), s.world.log[s.control.id].request;
    if HandleStatus(s, request).Queued? {
      PushKeepsQueues(s, t, request.key, s.control.id);
    } else {
      QueuesFramed(s, t);
    }
  }

  /** A request that leaves the front of its queue. */
  lemma PopKeepsQueues(s: State, t: State, key: KeyHash, status: Status)
    requires QueueInv(s) && QueueNonempty(s.queues, key) && !status.Queued? && s.queues[key][0] < |s.world.log|
    requires t.world.log == Marked(s.world.log, Mark(s.queues[key][0], status))
    requires t.queues == s.queues[key := s.queues[key][1..]]
    ensures QueueInv(t)
  {
    var id := s.queues[key][0];
    assert QueueOk(s.world.log, key, s.queues[key]);
    TailOfIncreasing(s.queues[key]);
    forall k | k in t.queues ensures QueueOk(t.world.log, k, t.queues[k]) {
      assert QueueOk(s.world.log, k, s.queues[k]);
    }
    forall i | 0 <= i < |t.world.log| && t.world.log[i].status.Queued?
      ensures InQueue(t.queues, t.world.log[i], i)
    {
      assert InQueue(s.queues, s.world.log[i], i);
    }
  }

  lemma DispatchKeepsQueues(setup: Setup, s: State, key: KeyHash, grown: nat, fate: Fate)
    requires QueueInv(s) && Enabled(setup, s, Dispatch(key, grown, fate))
    ensures QueueInv(Dispatched(setup, s, key, grown, fate))
  {
    var t := Dispatched(setup, s, key, grown, fate);
    var popped := t.(queues := s.queues[key := s.queues[key][1..]], active := s.active);
    PopKeepsQueues(s, popped, key, FateStatus(fate));
    if fate.Unavailable? {
      ForgetKeepsQueues(popped, t, key);
    }
  }

  lemma AdvanceKeepsQueues(setup: Setup, s: State, grown: nat, fate: Fate)
    requires PendingInv(s) && QueueInv(s) && OrderInv(s) && Enabled(setup, s, Advance(grown, fate))
    ensures QueueInv(Advanced(setup, s, grown, fate))
  {
    var t := Advanced(setup, s, grown, fate);
    if s.pending != [] {
      assert s.pending[0] in s.pending;
    }
    if RoundOf(s).Readmit? {
      var id := s.pending[0];
      forall i | 0 <= i < |s.world.log| && s.world.log[i].status.Queued? ensures i < id {
        assert InQueue(s.queues, s.world.log[i], i);
        assert Rank(s.world.log[i]) > Rank(s.world.log[id]);
      }
      PushKeepsQueues(s, t, s.world.log[id].request.key, id);
    } else {
      QueuesFramed(s, t);
    }
  }

  /** Forgetting an empty queue forgets nothing. */
  lemma ForgetKeepsQueues(s: State, t: State, key: KeyHash)
    requires QueueInv(s) && t.world.log == s.world.log && t.queues == Forget(s.queues, s.active, key)
    ensures QueueInv(t)
  {
    forall k | k in t.queues ensures QueueOk(t.world.log, k, t.queues[k]) {
      assert QueueOk(s.world.log, k, s.queues[k]);
    }
    forall i | 0 <= i < |t.world.log| && t.world.log[i].status.Queued?
      ensures InQueue(t.queues, t.world.log[i], i)
    {
      assert InQueue(s.queues, s.world.log[i], i);
    }
  }

  lemma DrainKeepsQueues(setup: Setup, s: State)
    requires InboxInv(s) && PendingInv(s) && QueueInv(s) && Enabled(setup, s, Drain)
    ensures QueueInv(Drained(setup, s))
  {
    if FrontIsClose(s) {
      assert s.pending[0] in s.pending;
    } else if s.world.channel != [] && s.world.channel[0].Requested? {
      assert Inbox(s)[0] == s.world.channel[0].id;
    }
    QueuesFramed(s, Drained(setup, s));
  }

  lemma EndFillingKeepsQueues(setup: Setup, s: State)
    requires QueueInv(s) && DeliveringInv(s) && Enabled(setup, s, EndFilling)
    ensures QueueInv(EndedFilling(setup, s))
  {
    var t := EndedFilling(setup, s);
    QueuesFramed(s, s.(world := t.world));
    if s.control.next.AfterCompletion? {
      ForgetKeepsQueues(s.(world := t.world), t, s.control.next.key);
    }
  }

  lemma ReceiveKeepsQueues(setup: Setup, s: State)
    requires QueueInv(s) && RunningInv(s) && Enabled(setup, s, Receive)
    ensures QueueInv(Received(setup, s))
  {
    assert EventOk(s.world, s.world.channel[0]);
    QueuesFramed(s, Received(setup, s));
  }

  lemma ActionKeepsQueues(setup: Setup, s: State, action: Action)
    requires Placed(setup, s) && OrderInv(s) && Enabled(setup, s, action)
    ensures QueueInv(Next(setup, s, ByCoordinator(action)))
  {
    match action {
      case Receive => ReceiveKeepsQueues(setup, s);
      case Handle => HandleKeepsQueues(setup, s);
      case Dispatch(key, grown, fate) => DispatchKeepsQueues(setup, s, key, grown, fate);
      case Skip =>
      case EndFilling => EndFillingKeepsQueues(setup, s);
      case Advance(grown, fate) => AdvanceKeepsQueues(setup, s, grown, fate);
      case Check(_) =>
      case WriteTerminal =>
      case Drain => DrainKeepsQueues(setup, s);
      case Disconnect =>
    }
  }
}
