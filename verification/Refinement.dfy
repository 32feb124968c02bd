/** Concurrent execution refines a plain map from keys to files, used by one caller at a time. */
module Refinement {
  import opened Config
  import opened Endings
  import opened EnvelopeIo
  import opened Invariant
  import opened Operations
  import opened Progress
  import opened Protocol
  import opened Results
  import opened Runs
  import opened StepsReplay

  // ---------------------------------------------------------------- the plain store

  /** One call of the plain store: the operation, the file it left, and its answer, if it gave one. */
  datatype Call = Call(key: KeyHash, operation: Operation, after: Option<Blob>, result: Option<OperationResult>)

  /** The plain store after some calls, made one at a time. */
  function PlainStore(base: Disk, calls: seq<Call>): Disk {
    if calls == [] then base
    else
      var call := calls[|calls| - 1];
      Put(PlainStore(base, calls[..|calls| - 1]), call.key, call.after)
  }

  /** The call did what its operation may do to the file it found. */
  ghost predicate PlainCall(setup: Setup, earlier: seq<Call>, call: Call) {
    setup.legal(call.operation, At(PlainStore(setup.base, earlier), call.key), call.after, call.result)
  }

  ghost predicate Plain(setup: Setup, calls: seq<Call>) {
    forall k | 0 <= k < |calls| :: PlainCall(setup, calls[..k], calls[k])
  }

  predicate Executed(entry: Entry) {
    entry.request.Operate? && entry.effect.Some?
  }

  function CallOf(entry: Entry): Call
    requires Executed(entry)
  {
    Call(entry.request.key, entry.request.operation, entry.effect.value.after, entry.effect.value.result)
  }

  /** The calls behind the first `count` requests: those that were executed, in the order sent. */
  function Calls(log: seq<Entry>, count: nat): seq<Call>
    requires count <= |log|
  {
    if count == 0 then []
    else if Executed(log[count - 1]) then Calls(log, count - 1) + [CallOf(log[count - 1])]
    else Calls(log, count - 1)
  }

  lemma {:induction false} ReplayIsPlain(base: Disk, log: seq<Entry>, count: nat)
    requires count <= |log|
    ensures Replay(base, log, count) == PlainStore(base, Calls(log, count))
  {
    if count == 0 {
    } else {
      ReplayIsPlain(base, log, count - 1);
      var calls, earlier := Calls(log, count), Calls(log, count - 1);
      if calls != earlier {
        assert calls[..|calls| - 1] == earlier;
      }
    }
  }

  lemma PlainGrows(setup: Setup, calls: seq<Call>, call: Call)
    requires Plain(setup, calls) && PlainCall(setup, calls, call)
    ensures Plain(setup, calls + [call])
  {
    var more := calls + [call];
    forall k | 0 <= k < |more| ensures PlainCall(setup, more[..k], more[k]) {
      assert more[..k] == if k == |calls| then calls else calls[..k];
    }
  }

  lemma NextCallIsPlain(setup: Setup, log: seq<Entry>, i: Id)
    requires i < |log| && Executed(log[i]) && EffectOk(setup, log, i)
    requires Plain(setup, Calls(log, i))
    ensures Plain(setup, Calls(log, i) + [CallOf(log[i])])
  {
    ReplayIsPlain(setup.base, log, i);
    PlainGrows(setup, Calls(log, i), CallOf(log[i]));
  }

  lemma {:induction false} CallsArePlain(setup: Setup, log: seq<Entry>, count: nat)
    requires count <= |log|
    requires forall i | 0 <= i < |log| && log[i].effect.Some? :: EffectOk(setup, log, i)
    ensures Plain(setup, Calls(log, count))
  {
    if count == 0 {
    } else {
      CallsArePlain(setup, log, count - 1);
      if Executed(log[count - 1]) {
        NextCallIsPlain(setup, log, count - 1);
      }
    }
  }

  /** The refinement. In every reachable state, the files are those of a plain store on which the
      executed operations were called one at a time, in the order in which they were sent; and every
      answer is the answer of its call. Requests that were turned away or given up have no call. */
  lemma RefinesThePlainStore(setup: Setup, s: State)
    requires Reachable(setup, s)
    ensures Plain(setup, Calls(s.world.log, |s.world.log|))
    ensures s.world.disk == PlainStore(setup.base, Calls(s.world.log, |s.world.log|))
  {
    ReachableInv(setup, s);
    CallsArePlain(setup, s.world.log, |s.world.log|);
    ReplayIsPlain(setup.base, s.world.log, |s.world.log|);
  }

  /** What the plain store held when the call behind request `i` was made. */
  function Found(setup: Setup, log: seq<Entry>, i: Id): Option<Blob>
    requires i < |log| && log[i].request.Operate?
  {
    At(PlainStore(setup.base, Calls(log, i)), log[i].request.key)
  }

  /** An answered operation was executed, and its answer is one it may give on the file that the plain
      store held at its turn. A request that was refused left every file alone. */
  lemma AnswersArePlain(setup: Setup, s: State, i: Id)
    requires Reachable(setup, s) && i < |s.world.log| && s.world.log[i].status.Replied?
    ensures var entry := s.world.log[i];
            match entry.status.reply
            case Answered(result) =>
              entry.request.Operate? && entry.effect.Some?
              && setup.legal(entry.request.operation, Found(setup, s.world.log, i), entry.effect.value.after,
                             Some(result))
            case Dropped =>
              entry.effect.Some? ==>
                entry.request.Operate?
                && setup.legal(entry.request.operation, Found(setup, s.world.log, i), entry.effect.value.after, None)
            case _ => entry.effect.None?
  {
    ReachableInv(setup, s);
    assert EffectMatches(s.world.log[i]);
    if s.world.log[i].effect.Some? {
      assert EffectOk(setup, s.world.log, i);
      ReplayIsPlain(setup.base, s.world.log, i);
    }
  }

  // ---------------------------------------------------------------- end to end

  /** The setup of a store: executions do what `Legal` allows. */
  ghost function StoreSetup(store: Store, maximum: nat, base: Disk): Setup {
    Setup(maximum, base, (operation, before, after, result) => Legal(store, operation, before, after, result))
  }

  /** Between the two, no operation has left the file of the key different from how it found it. */
  ghost predicate Undisturbed(log: seq<Entry>, key: KeyHash, from: Id, to: Id) {
    forall k | from < k < to && k < |log| && Touches(log[k], key) ::
      log[k].effect.value.after == log[k].effect.value.before
  }

  lemma {:induction false} UndisturbedKeeps(setup: Setup, log: seq<Entry>, key: KeyHash, from: Id, to: Id)
    requires from < to <= |log| && Undisturbed(log, key, from, to)
    requires forall i | 0 <= i < |log| && log[i].effect.Some? :: EffectOk(setup, log, i)
    ensures At(Replay(setup.base, log, to), key) == At(Replay(setup.base, log, from + 1), key)
  {
    if to == from + 1 {
    } else {
      UndisturbedKeeps(setup, log, key, from, to - 1);
      if log[to - 1].effect.Some? {
        assert EffectOk(setup, log, to - 1);
        assert Touches(log[to - 1], log[to - 1].request.key);
      }
    }
  }

  lemma FoundBetween(setup: Setup, s: State, key: KeyHash, i: Id, j: Id)
    requires ReplayInv(setup, s) && i < j < |s.world.log|
    requires Touches(s.world.log[i], key) && Touches(s.world.log[j], key) && Undisturbed(s.world.log, key, i, j)
    ensures s.world.log[j].effect.value.before == s.world.log[i].effect.value.after
  {
    assert EffectOk(setup, s.world.log, i) && EffectOk(setup, s.world.log, j);
    UndisturbedKeeps(setup, s.world.log, key, i, j);
  }

  /** Through any interleaving, and whether payloads are passed whole or in chunks: a load that is answered
      after a save of the same key succeeded, with only calls in between that changed nothing, gets the
      saved payload back, byte for byte, or an I/O error; a streaming load that its reader cancels has
      delivered a beginning of it. */
  lemma SavedIsLoaded(
      store: Store, maximum: nat, base: Disk, s: State, i: Id, j: Id, saved: OperationResult, loaded: OperationResult)
    requires store.Valid() && Reachable(StoreSetup(store, maximum, base), s)
    requires i < j < |s.world.log| && SameKey(s.world.log[i], s.world.log[j])
    requires s.world.log[i].status == Replied(Answered(saved)) && s.world.log[j].status == Replied(Answered(loaded))
    requires PayloadSaved(s.world.log[i].request.operation, saved).Some?
    requires s.world.log[j].request.operation.Load? || s.world.log[j].request.operation.LoadStream?
    requires Undisturbed(s.world.log, s.world.log[i].request.key, i, j)
    ensures var save := s.world.log[i].request.operation;
            Returns(s.world.log[j].request.operation, loaded, PayloadSaved(save, saved).value)
  {
    var setup, log := StoreSetup(store, maximum, base), s.world.log;
    ReachableInv(setup, s);
    assert EffectMatches(log[i]) && EffectMatches(log[j]);
    assert EffectOk(setup, log, i) && EffectOk(setup, log, j);
    FoundBetween(setup, s, log[i].request.key, i, j);
    var first, second := log[i].effect.value, log[j].effect.value;
    LoadReturnsWhatWasSaved(store, log[i].request.operation, saved, log[j].request.operation, loaded,
                            first.before, first.after, second.after);
  }

  /** The result that reaches `deliver` always belongs to the operation it answers. */
  lemma ResultsMatchOperations(store: Store, maximum: nat, base: Disk, s: State, i: Id)
    requires Reachable(StoreSetup(store, maximum, base), s) && i < |s.world.log|
    requires s.world.log[i].effect.Some? && s.world.log[i].effect.value.result.Some?
    ensures s.world.log[i].request.Operate?
    ensures Matches(s.world.log[i].request.operation, s.world.log[i].effect.value.result.value)
  {
    ReachableInv(StoreSetup(store, maximum, base), s);
    assert EffectOk(StoreSetup(store, maximum, base), s.world.log, i);
  }

  /** Whatever an operation finds, there is a result it may end with: the failure of a system call, or the
      error of its own input. */
  lemma OperationsMayEnd(store: Store, operation: Operation, view: Option<Blob>)
    returns (after: Option<Blob>, result: OperationResult)
    ensures Legal(store, operation, view, after, Some(result))
  {
    after := view;
    match operation {
      case Load => result := Loaded(Err(Io(OpenBlob)));
      case LoadStream => result := LoadStreamed(Err(Io(OpenBlob)), []);
      case Save(payload) => result := Saved(SaveFails(store, |payload|));
      case SaveStream(declared, messages) =>
        var outcome := StreamResult(declared, messages);
        result := SaveStreamed(if declared <= store.maximum && outcome.Err? then Err(outcome.error)
                               else SaveFails(store, declared));
      case Clear => result := Cleared(Err(Io(InspectNamespace)));
      case Inspect => result := Inspected(Err(Io(InspectNamespace)));
      case Quarantine => result := OperationResult.Quarantined(Err(Io(InspectNamespace)));
    }
  }

  function SaveFails(store: Store, size: nat): Result<()> {
    if |store.format.domain| == DOMAIN_TAG_LEN && size <= store.maximum then Err(Io(OpenStaging))
    else Err(BlobTooLarge(size, store.maximum))
  }

  lemma StoresMayEnd(store: Store, maximum: nat, base: Disk)
    ensures MayEnd(StoreSetup(store, maximum, base))
  {
    var setup := StoreSetup(store, maximum, base);
    forall operation, view ensures CanEnd(setup, operation, view) {
      var after, result := OperationsMayEnd(store, operation, view);
      assert setup.legal(operation, view, after, Some(result));
    }
  }

  /** Executions can end, so `EveryRequestIsAnswered` applies to every store: without new requests at most
      `Potential` steps are left; where no free one is left, every request is answered or held up by the
      stalled caller of a stream; and if none stalls, every request is answered. */
  lemma EveryRequestToAStoreIsAnswered(
      store: Store, setup: Setup, s: State, steps: seq<Step>, stalled: set<Id>, t: State)
    requires setup == StoreSetup(store, setup.maximum, setup.base) && Reachable(setup, s)
    requires IsRun(setup, s, steps) && AllWork(steps) && t == After(setup, s, steps)
    ensures |steps| <= Potential(s)
    ensures OnlyStallsLeft(setup, t, stalled) ==>
              forall i | 0 <= i < |t.world.log| :: AnsweredOrHeldUp(setup, t, stalled, i)
    ensures OnlyStallsLeft(setup, t, {}) ==> AllAnswered(t)
  {
    StoresMayEnd(store, setup.maximum, setup.base);
    EveryRequestIsAnswered(setup, s, steps, stalled, t);
  }

  /** From the moment a job opens its file until it is done, no other operation changes that file: what a
      streaming load validated in its first pass is what it reads in its second. */
  lemma NothingChangesUnderAJob(setup: Setup, s: State, j: nat)
    requires Reachable(setup, s) && j < |s.world.jobs|
    requires s.world.jobs[j].OperationJob? && s.world.jobs[j].stage.Opened?
    ensures s.world.jobs[j].stage.view == At(s.world.disk, s.world.jobs[j].key)
  {
    ReachableInv(setup, s);
    assert JobOk(s.world, s.world.jobs[j]);
  }

  /** Each operation that was executed, even one that panicked, has left the file it found in the plain
      store or its own complete replacement. */
  lemma EveryEffectIsOldOrNew(store: Store, maximum: nat, base: Disk, s: State, i: Id)
    requires Reachable(StoreSetup(store, maximum, base), s) && i < |s.world.log|
    requires s.world.log[i].request.Operate? && s.world.log[i].effect.Some?
    ensures Interrupted(store, s.world.log[i].request.operation,
                        Found(StoreSetup(store, maximum, base), s.world.log, i),
                        s.world.log[i].effect.value.after)
  {
    var setup := StoreSetup(store, maximum, base);
    ReachableInv(setup, s);
    var effect := s.world.log[i].effect.value;
    assert EffectOk(setup, s.world.log, i);
    ReplayIsPlain(base, s.world.log, i);
    LegalIsOldOrNew(store, s.world.log[i].request.operation, effect.before, effect.after, effect.result);
  }
}
