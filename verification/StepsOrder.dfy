/** Every step keeps the order of requests: who got further came first, and each key is served in
    order. */
module StepsOrder {
  import opened Invariant
  import opened Operations
  import opened Protocol
  import opened StepsForward
  import opened StepsPlaces

  // ---------------------------------------------------------------- all requests

  /** A request may get further if no other request that is behind it in rank came before it. */
  ghost predicate MayRise(log: seq<Entry>, id: Id, status: Status)
    requires id < |log|
  {
    var risen := log[id].(status := status);
    || log[id].request.Close?
    || Rank(risen) == Rank(log[id])
    || (Rank(log[id]) < Rank(risen)
        && forall r | 0 <= r < |log| && r != id && !log[r].request.Close? && Rank(log[r]) < Rank(risen) :: id < r)
  }

  lemma MarkKeepsOrder(s: State, t: State, id: Id, status: Status)
    requires OrderInv(s) && id < |s.world.log| && MayRise(s.world.log, id, status)
    requires t.world.log == Marked(s.world.log, Mark(id, status))
    ensures OrderInv(t)
  {
  }

  /** Steps that change no rank of a request other than a close. */
  lemma OrderFramed(s: State, t: State)
    requires OrderInv(s) && |s.world.log| <= |t.world.log|
    requires forall i | 0 <= i < |s.world.log| ::
               t.world.log[i].request == s.world.log[i].request
               && (!t.world.log[i].request.Close? ==> Rank(t.world.log[i]) == Rank(s.world.log[i]))
    requires forall i | |s.world.log| <= i < |t.world.log| :: t.world.log[i].status.Waiting?
    ensures OrderInv(t)
  {
  }

  lemma MoveKeepsOrder(setup: Setup, s: State, move: Move)
    requires OrderInv(s) && RunningInv(s) && MoveEnabled(setup, s.world, move)
    ensures OrderInv(Next(setup, s, ByOthers(move)))
  {
    if move.Conclude? || move.ConcludeMaintenance? {
      assert JobOk(s.world, s.world.jobs[move.job]);
    }
  }

  lemma HandleKeepsOrder(setup: Setup, s: State)
    requires InboxInv(s) && PendingInv(s) && OrderInv(s) && CloseInv(s) && !s.control.Stopped?
    requires Enabled(setup, s, Handle)
    ensures OrderInv(Handled(setup, s))
  {
    HandleKeepsInbox(setup, s);
    var log, id := s.world.log, s.control.id;
    var status := HandleStatus(s, log[id].request);
    if !log[id].request.Close? && s.world.lifecycle.Open? {
      forall r | 0 <= r < |log| && r != id && !log[r].request.Close?
                 && Rank(log[r]) < Rank(log[id].(status := status))
        ensures id < r
      {
        assert Late(log[r]) ==> CloseReceived(log, r);
      }
    }
    MarkKeepsOrder(s, Handled(setup, s), id, status);
  }

  lemma AdvanceKeepsOrder(setup: Setup, s: State, grown: nat, fate: Fate)
    requires PendingInv(s) && OrderInv(s) && Enabled(setup, s, Advance(grown, fate))
    ensures OrderInv(Advanced(setup, s, grown, fate))
  {
    var log, round := s.world.log, RoundOf(s);
    if !round.Stay? {
      var id := s.pending[0];
      assert id in s.pending;
      forall r | 0 <= r < |log| && r != id && !log[r].request.Close? && Rank(log[r]) < 2 ensures id < r {
        if Rank(log[r]) == 1 {
          assert r in s.pending;
        } else {
          assert Rank(log[id]) > Rank(log[r]);
        }
      }
      MarkKeepsOrder(s, Advanced(setup, s, grown, fate), id, RoundStatus(round, fate));
    }
  }

  lemma DrainKeepsOrder(setup: Setup, s: State)
    requires InboxInv(s) && PendingInv(s) && OrderInv(s) && Enabled(setup, s, Drain)
    ensures OrderInv(Drained(setup, s))
  {
    if !FrontIsClose(s) && s.world.channel != [] && s.world.channel[0].Requested? {
      assert Inbox(s)[0] == s.world.channel[0].id;
    }
    OrderFramed(s, Drained(setup, s));
  }

  lemma DispatchKeepsOrder(setup: Setup, s: State, key: KeyHash, grown: nat, fate: Fate)
    requires QueueInv(s) && OrderInv(s) && Enabled(setup, s, Dispatch(key, grown, fate))
    ensures OrderInv(Dispatched(setup, s, key, grown, fate))
  {
    assert QueueOk(s.world.log, key, s.queues[key]);
    assert s.queues[key][0] in s.queues[key];
    OrderFramed(s, Dispatched(setup, s, key, grown, fate));
  }

  lemma ReceiveKeepsOrder(setup: Setup, s: State)
    requires RunningInv(s) && OrderInv(s) && Enabled(setup, s, Receive)
    ensures OrderInv(Received(setup, s))
  {
    assert EventOk(s.world, s.world.channel[0]);
    OrderFramed(s, Received(setup, s));
  }

  lemma EndFillingKeepsOrder(setup: Setup, s: State)
    requires DeliveringInv(s) && OrderInv(s) && Enabled(setup, s, EndFilling)
    ensures OrderInv(EndedFilling(setup, s))
  {
    OrderFramed(s, EndedFilling(setup, s));
  }

  /** A step that answers nobody and turns to nobody keeps the order. */
  lemma ControlKeepsOrder(setup: Setup, s: State, action: Action, t: State)
    requires OrderInv(s) && Enabled(setup, s, action) && t == Acted(setup, s, action)
    requires action.Skip? || action.Check? || action.WriteTerminal? || action.Disconnect?
    ensures OrderInv(t)
  {
  }

  lemma ActionKeepsOrder(setup: Setup, s: State, action: Action)
    requires Placed(setup, s) && OrderInv(s) && CloseInv(s) && Enabled(setup, s, action)
    ensures OrderInv(Next(setup, s, ByCoordinator(action)))
  {
    match action {
      case Receive => ReceiveKeepsOrder(setup, s);
      case Handle => HandleKeepsOrder(setup, s);
      case Dispatch(key, grown, fate) => DispatchKeepsOrder(setup, s, key, grown, fate);
      case EndFilling => EndFillingKeepsOrder(setup, s);
      case Advance(grown, fate) => AdvanceKeepsOrder(setup, s, grown, fate);
      case Drain => DrainKeepsOrder(setup, s);
      case _ => ControlKeepsOrder(setup, s, action, Acted(setup, s, action));
    }
  }

  // ---------------------------------------------------------------- each key

  /** Steps that take no operation from a queue keep the order of each key. */
  lemma FifoFramed(s: State, t: State)
    requires FifoInv(s) && LogForward(s.world.log, t.world.log, false)
    ensures FifoInv(t)
  {
    forall i, j | 0 <= i < j < |t.world.log| && SameKey(t.world.log[i], t.world.log[j]) && Taken(t.world.log[j])
      ensures Finished(t.world.log[i])
    {
      assert Forward(s.world.log[j], t.world.log[j], false);
      assert Forward(s.world.log[i], t.world.log[i], false);
    }
  }

  /** The front of a queue is the earliest unfinished operation of its key. */
  lemma FrontIsNext(setup: Setup, s: State, key: KeyHash, i: Id)
    requires Placed(setup, s) && OrderInv(s)
    requires QueueNonempty(s.queues, key) && key !in s.active
    requires s.queues[key][0] < |s.world.log| && i < s.queues[key][0] && OfKey(s.world.log, i, key)
    ensures Finished(s.world.log[i])
  {
    var log, queue := s.world.log, s.queues[key];
    assert QueueOk(log, key, queue);
    assert queue[0] in queue;
    assert Rank(log[queue[0]]) == 2;
    QueuedIsInQueue(s, i);
    RunningIsActive(s, i);
  }

  lemma DispatchKeepsFifo(setup: Setup, s: State, key: KeyHash, grown: nat, fate: Fate)
    requires Placed(setup, s) && OrderInv(s) && FifoInv(s) && Enabled(setup, s, Dispatch(key, grown, fate))
    ensures FifoInv(Dispatched(setup, s, key, grown, fate))
  {
    var log, id, t := s.world.log, s.queues[key][0], Dispatched(setup, s, key, grown, fate);
    assert QueueOk(log, key, s.queues[key]);
    assert id in s.queues[key];
    forall i, j | 0 <= i < j < |log| && SameKey(t.world.log[i], t.world.log[j]) && Taken(t.world.log[j])
      ensures Finished(t.world.log[i])
    {
      if j == id {
        FrontIsNext(setup, s, key, i);
      } else {
        assert SameKey(log[i], log[j]) && Taken(log[j]);
      }
    }
  }

  /** The history of departures changes only when an operation departs. */
  lemma TakenFramed(s: State, t: State)
    requires TakenInv(s) && t.taken == s.taken && LogForward(s.world.log, t.world.log, false)
    ensures TakenInv(t)
  {
    var log, later := s.world.log, t.world.log;
    forall i | 0 <= i < |log|
      ensures later[i].request == log[i].request
      ensures later[i].request.Operate? ==> Taken(later[i]) == Taken(log[i])
    {
      assert Forward(log[i], later[i], false);
    }
  }

  lemma DispatchKeepsTaken(setup: Setup, s: State, key: KeyHash, grown: nat, fate: Fate)
    requires QueueInv(s) && FifoInv(s) && TakenInv(s) && Enabled(setup, s, Dispatch(key, grown, fate))
    ensures TakenInv(Dispatched(setup, s, key, grown, fate))
  {
    var log, id, t := s.world.log, s.queues[key][0], Dispatched(setup, s, key, grown, fate);
    assert QueueOk(log, key, s.queues[key]);
    assert id in s.queues[key];
    Departs(s, t, id, FateStatus(fate));
  }

  lemma Departs(s: State, t: State, id: Id, status: Status)
    requires FifoInv(s) && TakenInv(s) && id < |s.world.log|
    requires s.world.log[id].request.Operate? && s.world.log[id].status.Queued?
    requires t.world.log == Marked(s.world.log, Mark(id, status)) && t.taken == s.taken + [id]
    requires Taken(t.world.log[id])
    ensures TakenInv(t)
  {
    var log := s.world.log;
    forall i | 0 <= i < |t.world.log| && t.world.log[i].request.Operate? && Taken(t.world.log[i])
      ensures i in t.taken
    {
      assert i == id ==> t.taken[|s.taken|] == id;
      assert i != id ==> i in s.taken;
    }
    forall p | 0 <= p < |s.taken|
      ensures s.taken[p] != id
      ensures SameKey(log[s.taken[p]], log[id]) ==> s.taken[p] < id
    {
      assert SameKey(log[s.taken[p]], log[id]) && id < s.taken[p] ==> Finished(log[id]);
    }
  }

  lemma MoveKeepsFifo(setup: Setup, s: State, move: Move)
    requires FifoInv(s) && TakenInv(s) && RunningInv(s) && MoveEnabled(setup, s.world, move)
    ensures FifoInv(Next(setup, s, ByOthers(move))) && TakenInv(Next(setup, s, ByOthers(move)))
  {
    MoveIsForward(setup, s, move);
    FifoFramed(s, Next(setup, s, ByOthers(move)));
    TakenFramed(s, Next(setup, s, ByOthers(move)));
  }

  lemma ActionKeepsFifo(setup: Setup, s: State, action: Action)
    requires Placed(setup, s) && OrderInv(s) && FifoInv(s) && TakenInv(s) && Enabled(setup, s, action)
    ensures FifoInv(Next(setup, s, ByCoordinator(action))) && TakenInv(Next(setup, s, ByCoordinator(action)))
  {
    match action {
      case Dispatch(key, grown, fate) =>
        DispatchKeepsFifo(setup, s, key, grown, fate);
        DispatchKeepsTaken(setup, s, key, grown, fate);
      case _ =>
        ActionIsForward(setup, s, action);
        FifoFramed(s, Acted(setup, s, action));
        TakenFramed(s, Acted(setup, s, action));
    }
  }
}
