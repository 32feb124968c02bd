/** Every step keeps the files in agreement with the plain store: applying the recorded effects one
    after the other, in the order in which the requests were sent, gives what is on disk. */
module StepsReplay {
  import opened Invariant
  import opened Operations
  import opened Protocol
  import opened Results
  import opened StepsPlaces

  // ---------------------------------------------------------------- effects and replies

  lemma MoveKeepsEffects(setup: Setup, s: State, move: Move)
    requires EffectInv(s) && RunningInv(s) && ReplayInv(setup, s) && MoveEnabled(setup, s.world, move)
    ensures EffectInv(Next(setup, s, ByOthers(move)))
  {
    var log, later := s.world.log, Moved(setup, s.world, move).log;
    if move.Conclude? || move.ConcludeMaintenance? {
      assert JobOk(s.world, s.world.jobs[move.job]);
    }
    forall i | 0 <= i < |later| ensures EffectMatches(later[i]) {
      if i < |log| {
        assert EffectMatches(log[i]);
        assert log[i].effect.Some? ==> EffectOk(setup, log, i);
      }
    }
  }

  /** A change of status that fits the effect recorded so far. */
  lemma MarkKeepsEffects(s: State, t: State, mark: Mark)
    requires EffectInv(s) && (mark.Mark? ==> mark.id < |s.world.log|)
    requires mark.Mark? ==> EffectMatches(s.world.log[mark.id].(status := mark.status))
    requires t.world.log == Marked(s.world.log, mark)
    ensures EffectInv(t)
  {
    forall i | 0 <= i < |t.world.log| ensures EffectMatches(t.world.log[i]) {
      assert EffectMatches(s.world.log[i]);
    }
  }

  lemma ReceiveKeepsEffects(setup: Setup, s: State)
    requires EffectInv(s) && RunningInv(s) && ReplayInv(setup, s) && Enabled(setup, s, Receive)
    ensures EffectInv(Received(setup, s))
  {
    var mark := ReceiveMark(s.world.channel[0]);
    assert EventOk(s.world, s.world.channel[0]);
    if mark.Mark? {
      assert s.world.log[mark.id].effect.Some? ==> EffectOk(setup, s.world.log, mark.id);
    }
    MarkKeepsEffects(s, Received(setup, s), mark);
  }

  lemma HandleKeepsEffects(setup: Setup, s: State)
    requires InboxInv(s) && EffectInv(s) && Enabled(setup, s, Handle)
    ensures EffectInv(Handled(setup, s))
  {
    HandleKeepsInbox(setup, s);
    var id := s.control.id;
    assert EffectMatches(s.world.log[id]);
    MarkKeepsEffects(s, Handled(setup, s), Mark(id, HandleStatus(s, s.world.log[id].request)));
  }

  lemma DispatchKeepsEffects(setup: Setup, s: State, key: KeyHash, grown: nat, fate: Fate)
    requires QueueInv(s) && EffectInv(s) && Enabled(setup, s, Dispatch(key, grown, fate))
    ensures EffectInv(Dispatched(setup, s, key, grown, fate))
  {
    var id := s.queues[key][0];
    assert QueueOk(s.world.log, key, s.queues[key]);
    assert id in s.queues[key];
    assert EffectMatches(s.world.log[id]);
    MarkKeepsEffects(s, Dispatched(setup, s, key, grown, fate), Mark(id, FateStatus(fate)));
  }

  lemma EndFillingKeepsEffects(setup: Setup, s: State)
    requires DeliveringInv(s) && EffectInv(s) && Enabled(setup, s, EndFilling)
    ensures EffectInv(EndedFilling(setup, s))
  {
    MarkKeepsEffects(s, EndedFilling(setup, s), EndFillingMark(s.control.next));
  }

  lemma AdvanceKeepsEffects(setup: Setup, s: State, grown: nat, fate: Fate)
    requires PendingInv(s) && EffectInv(s) && Enabled(setup, s, Advance(grown, fate))
    ensures EffectInv(Advanced(setup, s, grown, fate))
  {
    var round := RoundOf(s);
    if !round.Stay? {
      assert s.pending[0] in s.pending;
      assert EffectMatches(s.world.log[s.pending[0]]);
      MarkKeepsEffects(s, Advanced(setup, s, grown, fate), Mark(s.pending[0], RoundStatus(round, fate)));
    }
  }

  lemma DrainKeepsEffects(setup: Setup, s: State)
    requires InboxInv(s) && PendingInv(s) && EffectInv(s) && Enabled(setup, s, Drain)
    ensures EffectInv(Drained(setup, s))
  {
    var mark := DrainMark(s, s.control.ok);
    if FrontIsClose(s) {
      assert s.pending[0] in s.pending;
    } else if mark.Mark? {
      assert Inbox(s)[0] == mark.id;
    }
    if mark.Mark? {
      assert EffectMatches(s.world.log[mark.id]);
    }
    MarkKeepsEffects(s, Drained(setup, s), mark);
  }

  lemma ActionKeepsEffects(setup: Setup, s: State, action: Action)
    requires Placed(setup, s) && EffectInv(s) && ReplayInv(setup, s) && Enabled(setup, s, action)
    ensures EffectInv(Next(setup, s, ByCoordinator(action)))
  {
    match action {
      case Receive => ReceiveKeepsEffects(setup, s);
      case Handle => HandleKeepsEffects(setup, s);
      case Dispatch(key, grown, fate) => DispatchKeepsEffects(setup, s, key, grown, fate);
      case Skip =>
      case EndFilling => EndFillingKeepsEffects(setup, s);
      case Advance(grown, fate) => AdvanceKeepsEffects(setup, s, grown, fate);
      case Check(_) =>
      case WriteTerminal =>
      case Drain => DrainKeepsEffects(setup, s);
      case Disconnect =>
    }
  }

  // ---------------------------------------------------------------- the plain store

  ghost predicate SameEffects(log: seq<Entry>, later: seq<Entry>, count: nat) {
    && count <= |log| && count <= |later|
    && forall i | 0 <= i < count :: later[i].request == log[i].request && later[i].effect == log[i].effect
  }

  lemma {:induction false} ReplayFramed(base: Disk, log: seq<Entry>, later: seq<Entry>, count: nat)
    requires SameEffects(log, later, count)
    ensures Replay(base, later, count) == Replay(base, log, count)
  {
    if count == 0 {
    } else {
      ReplayFramed(base, log, later, count - 1);
    }
  }

  /** The request has had its effect on the file of `key`. */
  predicate Touches(entry: Entry, key: KeyHash) {
    entry.request.Operate? && entry.request.key == key && entry.effect.Some?
  }

  lemma {:induction false} ReplayUntouched(base: Disk, log: seq<Entry>, from: nat, count: nat, key: KeyHash)
    requires from <= count <= |log|
    requires forall i | from <= i < count :: !Touches(log[i], key)
    ensures At(Replay(base, log, count), key) == At(Replay(base, log, from), key)
  {
    if count == from {
    } else {
      ReplayUntouched(base, log, from, count - 1, key);
    }
  }

  lemma PutsCommute(disk: Disk, a: KeyHash, x: Option<Blob>, b: KeyHash, y: Option<Blob>)
    requires a != b
    ensures Put(Put(disk, a, x), b, y) == Put(Put(disk, b, y), a, x)
  {
  }

  /** An effect that is the latest of its key comes last in the plain store, wherever its request stands. */
  lemma {:induction false} ReplayWithEffect(
      base: Disk, log: seq<Entry>, later: seq<Entry>, id: Id, effect: Effect, count: nat)
    requires id < count <= |log| && log[id].request.Operate? && log[id].effect.None?
    requires |later| == |log| && later == log[id := log[id].(effect := Some(effect), status := later[id].status)]
    requires forall i | id < i < count :: !Touches(log[i], log[id].request.key)
    ensures Replay(base, later, count) == Put(Replay(base, log, count), log[id].request.key, effect.after)
  {
    if count == id + 1 {
      ReplayFramed(base, log, later, id);
    } else {
      ReplayWithEffect(base, log, later, id, effect, count - 1);
      var entry := log[count - 1];
      if entry.request.Operate? && entry.effect.Some? {
        assert Touches(entry, entry.request.key);
        PutsCommute(Replay(base, log, count - 1), log[id].request.key, effect.after,
                    entry.request.key, entry.effect.value.after);
      }
    }
  }

  /** Steps that record no effect. */
  lemma EffectsFramed(setup: Setup, s: State, t: State)
    requires ReplayInv(setup, s) && t.world.disk == s.world.disk
    requires SameEffects(s.world.log, t.world.log, |s.world.log|)
    requires forall i | |s.world.log| <= i < |t.world.log| :: t.world.log[i].effect.None?
    ensures ReplayInv(setup, t)
  {
    var log, later := s.world.log, t.world.log;
    ReplayFramed(setup.base, log, later, |log|);
    ReplayGrows(setup.base, later, |log|, |later|);
    forall i | 0 <= i < |later| && later[i].effect.Some? ensures EffectOk(setup, later, i) {
      assert EffectOk(setup, log, i);
      ReplayFramed(setup.base, log, later, i);
    }
  }

  lemma {:induction false} ReplayGrows(base: Disk, log: seq<Entry>, from: nat, count: nat)
    requires from <= count <= |log|
    requires forall i | from <= i < count :: log[i].effect.None?
    ensures Replay(base, log, count) == Replay(base, log, from)
  {
    if count == from {
    } else {
      ReplayGrows(base, log, from, count - 1);
    }
  }

  /** While an operation runs, no later operation of its key has touched the file. */
  lemma LaterUntouched(setup: Setup, s: State, id: Id, i: Id)
    requires FifoInv(s) && EffectInv(s) && id < i < |s.world.log|
    requires s.world.log[id].request.Operate? && s.world.log[id].status.Running?
    ensures !Touches(s.world.log[i], s.world.log[id].request.key)
  {
    assert EffectMatches(s.world.log[i]);
  }

  /** The effect is recorded, and the file put in place. */
  lemma EffectRecorded(setup: Setup, log: seq<Entry>, later: seq<Entry>, disk: Disk, id: Id, effect: Effect)
    requires id < |log| && log[id].request.Operate? && log[id].effect.None? && |later| == |log|
    requires later == log[id := log[id].(effect := Some(effect), status := later[id].status)]
    requires forall k | id < k < |log| :: !Touches(log[k], log[id].request.key)
    requires forall i | 0 <= i < |log| && log[i].effect.Some? :: EffectOk(setup, log, i)
    requires disk == Replay(setup.base, log, |log|) && effect.before == At(disk, log[id].request.key)
    requires setup.legal(log[id].request.operation, effect.before, effect.after, effect.result)
    ensures Put(disk, log[id].request.key, effect.after) == Replay(setup.base, later, |later|)
    ensures forall i | 0 <= i < |later| && later[i].effect.Some? :: EffectOk(setup, later, i)
  {
    ReplayWithEffect(setup.base, log, later, id, effect, |log|);
    forall i | 0 <= i < |later| && later[i].effect.Some? ensures EffectOk(setup, later, i) {
      if i == id {
        ReplayUntouched(setup.base, log, id, |log|, log[id].request.key);
        ReplayFramed(setup.base, log, later, id);
      } else {
        assert EffectOk(setup, log, i);
        OthersUndisturbed(setup, log, later, id, effect, i);
      }
    }
  }

  lemma ConcludeKeepsReplay(setup: Setup, s: State, at: nat, after: Option<Blob>, result: Option<OperationResult>)
    requires FifoInv(s) && EffectInv(s) && RunningInv(s) && ReplayInv(setup, s)
    requires MoveEnabled(setup, s.world, Conclude(at, after, result))
    ensures ReplayInv(setup, Next(setup, s, ByOthers(Conclude(at, after, result))))
  {
    var w, w' := s.world, Moved(setup, s.world, Conclude(at, after, result));
    var id, key := w.jobs[at].id, w.jobs[at].key;
    assert JobOk(w, w.jobs[at]);
    forall i | id < i < |w.log| ensures !Touches(w.log[i], key) {
      LaterUntouched(setup, s, id, i);
    }
    EffectRecorded(setup, w.log, w'.log, w.disk, id, Effect(w.jobs[at].stage.view, after, result));
  }

  /** A new effect does not change what any other operation found. */
  lemma OthersUndisturbed(setup: Setup, log: seq<Entry>, later: seq<Entry>, id: Id, effect: Effect, i: Id)
    requires id < |log| && i < |log| && i != id && log[id].request.Operate? && log[id].effect.None?
    requires |later| == |log| && later == log[id := log[id].(effect := Some(effect), status := later[id].status)]
    requires forall k | id < k < |log| :: !Touches(log[k], log[id].request.key)
    requires log[i].effect.Some? && EffectOk(setup, log, i)
    ensures EffectOk(setup, later, i)
  {
    if i < id {
      ReplayFramed(setup.base, log, later, i);
    } else {
      assert !Touches(log[i], log[id].request.key);
      ReplayWithEffect(setup.base, log, later, id, effect, i);
    }
  }

  lemma MoveKeepsReplay(setup: Setup, s: State, move: Move)
    requires FifoInv(s) && EffectInv(s) && RunningInv(s) && ReplayInv(setup, s) && MoveEnabled(setup, s.world, move)
    ensures ReplayInv(setup, Next(setup, s, ByOthers(move)))
  {
    if move.Conclude? {
      ConcludeKeepsReplay(setup, s, move.job, move.after, move.result);
    } else {
      EffectsFramed(setup, s, Next(setup, s, ByOthers(move)));
    }
  }

  lemma ActionKeepsReplay(setup: Setup, s: State, action: Action)
    requires ReplayInv(setup, s) && Enabled(setup, s, action)
    ensures ReplayInv(setup, Next(setup, s, ByCoordinator(action)))
  {
    EffectsFramed(setup, s, Next(setup, s, ByCoordinator(action)));
  }
}
