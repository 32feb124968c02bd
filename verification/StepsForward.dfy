/** Every request only ever moves forward, and once it is answered its answer stays. */
module StepsForward {
  import opened Invariant
  import opened Operations
  import opened Protocol
  import opened StepsPlaces

  /** The one step a request may make. `departing` tells whether queued operations may leave. */
  predicate Forward(before: Entry, after: Entry, departing: bool) {
    && after.request == before.request
    && match before.status
       case Waiting =>
         after.status.Waiting? || after.status.Deferred? || after.status.Queued?
         || Late(after) || (after.request.Close? && after.status.Replied?)
       case Deferred =>
         after.status.Deferred?
         || (after.request.Operate? && after.status.Queued?)
         || (after.request.Maintain? && after.status.Running?)
         || (!after.request.Operate? && after.status.Replied? && !Late(after))
       case Queued =>
         after.status.Queued? || (departing && (after.status.Running? || (after.status.Replied? && !Late(after))))
       case Running =>
         after.status.Running? || after.status.Delivering? || (after.status.Replied? && !Late(after))
       case Delivering => after.status.Delivering? || (after.status.Replied? && after.status.reply.Answered?)
       case Replied(reply) => after.status == before.status
  }

  ghost predicate LogForward(log: seq<Entry>, later: seq<Entry>, departing: bool) {
    && |log| <= |later|
    && (forall i | 0 <= i < |log| :: Forward(log[i], later[i], departing))
    && (forall i | |log| <= i < |later| :: later[i].status.Waiting?)
  }

  lemma MoveIsForward(setup: Setup, s: State, move: Move)
    requires RunningInv(s) && MoveEnabled(setup, s.world, move)
    ensures LogForward(s.world.log, Moved(setup, s.world, move).log, false)
  {
    if move.Conclude? || move.ConcludeMaintenance? {
      assert JobOk(s.world, s.world.jobs[move.job]);
    }
  }

  lemma HandleIsForward(setup: Setup, s: State)
    requires InboxInv(s) && Enabled(setup, s, Handle)
    ensures LogForward(s.world.log, Handled(setup, s).world.log, false)
  {
    HandleKeepsInbox(setup, s);
  }

  lemma DispatchIsForward(setup: Setup, s: State, key: KeyHash, grown: nat, fate: Fate)
    requires QueueInv(s) && Enabled(setup, s, Dispatch(key, grown, fate))
    ensures LogForward(s.world.log, Dispatched(setup, s, key, grown, fate).world.log, true)
  {
    assert QueueOk(s.world.log, key, s.queues[key]);
    assert s.queues[key][0] in s.queues[key];
  }

  lemma AdvanceIsForward(setup: Setup, s: State, grown: nat, fate: Fate)
    requires PendingInv(s) && Enabled(setup, s, Advance(grown, fate))
    ensures LogForward(s.world.log, Advanced(setup, s, grown, fate).world.log, false)
  {
    if s.pending != [] {
      assert s.pending[0] in s.pending;
    }
  }

  lemma DrainIsForward(setup: Setup, s: State)
    requires InboxInv(s) && PendingInv(s) && Enabled(setup, s, Drain)
    ensures LogForward(s.world.log, Drained(setup, s).world.log, false)
  {
    if FrontIsClose(s) {
      assert s.pending[0] in s.pending;
    } else if s.world.channel != [] && s.world.channel[0].Requested? {
      assert Inbox(s)[0] == s.world.channel[0].id;
    }
  }

  lemma ReceiveIsForward(setup: Setup, s: State)
    requires RunningInv(s) && Enabled(setup, s, Receive)
    ensures LogForward(s.world.log, Received(setup, s).world.log, false)
  {
    assert EventOk(s.world, s.world.channel[0]);
  }

  lemma EndFillingIsForward(setup: Setup, s: State)
    requires DeliveringInv(s) && Enabled(setup, s, EndFilling)
    ensures LogForward(s.world.log, EndedFilling(setup, s).world.log, false)
  {
  }

  lemma ActionIsForward(setup: Setup, s: State, action: Action)
    requires Placed(setup, s) && Enabled(setup, s, action)
    ensures LogForward(s.world.log, Acted(setup, s, action).world.log, action.Dispatch?)
  {
    match action {
      case Receive => ReceiveIsForward(setup, s);
      case Handle => HandleIsForward(setup, s);
      case Dispatch(key, grown, fate) => DispatchIsForward(setup, s, key, grown, fate);
      case Skip =>
      case EndFilling => EndFillingIsForward(setup, s);
      case Advance(grown, fate) => AdvanceIsForward(setup, s, grown, fate);
      case Check(_) =>
      case WriteTerminal =>
      case Drain => DrainIsForward(setup, s);
      case Disconnect =>
    }
  }
}
