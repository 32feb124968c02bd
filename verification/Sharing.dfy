/** Many operations at once in one directory. Each job changes the directory step by step, between steps of
    all other threads, of other jobs, and of other stores that share the directory. The contracts of the
    operations hold as long as nobody else touches their names; here it is proved that nobody does, and that
    opening and ending an operation therefore amount to the two steps that Protocol.dfy makes of it. */
module Sharing {
  import opened Config
  import opened Directories
  import opened Execution
  import opened FileNames
  import opened Filesystem
  import opened Invariant
  import opened Operations
  import opened Protocol
  import opened Refinement
  import opened Results
  import opened Runs
  import opened StepsForward
  import opened StepsTokens

  // ---------------------------------------------------------------- footprints

  ghost predicate Proper(footprint: Footprint) {
    ValidSuffix(footprint.suffix) && (footprint.OfKey? ==> Identifier(footprint.hash))
  }

  predicate Apart(a: Footprint, b: Footprint) {
    a.suffix != b.suffix || (a.OfKey? && b.OfKey? && a.hash != b.hash)
  }

  lemma NamesTell(footprint: Footprint, name: string)
    requires Proper(footprint) && Within(footprint, name)
    ensures |name| >= IDENTIFIER_LEN && Leads(footprint.suffix, name[IDENTIFIER_LEN..])
    ensures footprint.OfKey? ==> name[..IDENTIFIER_LEN] == footprint.hash
  {
    match footprint {
      case OfKey(hash, suffix) => NamesLeadWithHashAndSuffix(name, hash, suffix);
      case AllStaging(suffix) => var tail := OwnedTail(name, suffix);
    }
  }

  lemma ApartShareNothing(a: Footprint, b: Footprint, name: string)
    requires Proper(a) && Proper(b) && Apart(a, b) && Within(a, name)
    ensures !Within(b, name)
  {
    NamesTell(a, name);
    if Within(b, name) {
      NamesTell(b, name);
      LeadingSuffixIsDetermined(a.suffix, b.suffix, name[IDENTIFIER_LEN..]);
    }
  }

  /** Two footprints have no name in common exactly if they are of different suffixes, or of different keys. */
  lemma ApartIsExact(a: Footprint, b: Footprint)
    requires Proper(a) && Proper(b)
    ensures Apart(a, b) <==> forall name :: !(Within(a, name) && Within(b, name))
  {
    if Apart(a, b) {
      forall name | Within(a, name) ensures !Within(b, name) {
        ApartShareNothing(a, b, name);
      }
    } else {
      var some := seq(IDENTIFIER_LEN, _ => '0');
      var hash := if a.OfKey? then a.hash else if b.OfKey? then b.hash else some;
      StagingNamesAreOfTheKey(hash, a.suffix, SaveStaging, some);
      assert Within(a, StagingName(hash, a.suffix, SaveStaging, some));
      assert Within(b, StagingName(hash, a.suffix, SaveStaging, some));
    }
  }

  /** What keeps to one footprint keeps out of all that are apart from it. */
  lemma ApartKeeps(a: Footprint, b: Footprint, before: Listing, after: Listing)
    requires Proper(a) && Proper(b) && Apart(a, b) && OutsideKept(a, before, after)
    ensures InsideKept(b, before, after)
  {
    forall name | Within(b, name) ensures Look(after, name) == Look(before, name) {
      ApartShareNothing(b, a, name);
    }
  }

  /** The clean-up keeps out of every key's canonical file. */
  lemma StagingKeepsFiles(store: Store, key: KeyHash, before: Listing, after: Listing)
    requires store.Valid() && key.Valid() && OutsideKept(AllStaging(store.format.suffix), before, after)
    ensures FileOf(store, after, key) == FileOf(store, before, key)
  {
    CanonicalNamesAreNotOwned(Hex(key.bytes), store.format.suffix, store.format.suffix);
  }

  function JobFootprint(store: Store, job: Job): Footprint {
    match job
    case OperationJob(key, _, _) => FootprintOf(store, key)
    case MaintenanceJob(_) => AllStaging(store.format.suffix)
  }

  ghost predicate ValidKey(job: Job) {
    job.OperationJob? ==> job.key.Valid()
  }

  /** Two jobs that are with the workers at the same time never share a name. */
  lemma JobsKeepApart(store: Store, setup: Setup, s: State, a: nat, b: nat)
    requires store.Valid() && Reachable(setup, s) && a < |s.world.jobs| && b < |s.world.jobs| && a != b
    requires ValidKey(s.world.jobs[a]) && ValidKey(s.world.jobs[b])
    ensures var x, y := JobFootprint(store, s.world.jobs[a]), JobFootprint(store, s.world.jobs[b]);
            Proper(x) && Proper(y) && Apart(x, y)
  {
    ReachableInv(setup, s);
    JobsAreApart(s, a, b);
    OperationsExcludeMaintenance(s, a, b);
    var x, y := s.world.jobs[a], s.world.jobs[b];
    if x.OperationJob? && y.OperationJob? && Hex(x.key.bytes) == Hex(y.key.bytes) {
      HexIsInjective(x.key.bytes, y.key.bytes);
    }
  }

  lemma OperationsExcludeMaintenance(s: State, a: nat, b: nat)
    requires TokenInv(s) && MaintenanceInv(s) && a < |s.world.jobs| && b < |s.world.jobs|
    ensures s.world.jobs[a].OperationJob? ==> s.world.jobs[b].OperationJob?
    ensures s.world.jobs[b].OperationJob? ==> s.world.jobs[a].OperationJob?
  {
    JobIsCounted(s.world.jobs, a);
    JobIsCounted(s.world.jobs, b);
    TokenMeansActive(s, if s.world.jobs[a].OperationJob? then s.world.jobs[a].key else KeyHash([]));
    TokenMeansActive(s, if s.world.jobs[b].OperationJob? then s.world.jobs[b].key else KeyHash([]));
  }

  // ---------------------------------------------------------------- the directory among the threads

  /** All threads, the directory, and what each job has seen of it since it began. */
  datatype Shared = Shared(state: State, files: Listing, seen: map<Id, seq<Moment>>)

  datatype SharedStep =
    | Meanwhile(step: Step)                                   // of any thread, but for opening and ending
    | Begin(job: nat)
    | Touch(job: nat, next: Listing)
    | End(job: nat, result: Option<OperationResult>)
    | Neighbour(footprint: Footprint, next: Listing)          // by another store in this directory

  predicate OpensOrEnds(step: Step) {
    step.ByOthers? && (step.move.Observe? || step.move.Conclude?)
  }

  ghost predicate SendsValidKey(step: Step) {
    step.ByOthers? && step.move.Send? && step.move.request.Operate? ==> step.move.request.key.Valid()
  }

  predicate HasBegun(sh: Shared, at: nat) {
    at < |sh.state.world.jobs| && sh.state.world.jobs[at].id in sh.seen && sh.seen[sh.state.world.jobs[at].id] != []
  }

  /** The contract of `run_owned_operation` for a step on the way, and of the clean-up: nothing is promised
      unless all others have kept out of the job's names so far. */
  ghost predicate KeepsPromise(store: Store, sh: Shared, at: nat, next: Listing)
    requires HasBegun(sh, at)
  {
    var w, job := sh.state.world, sh.state.world.jobs[at];
    History(JobFootprint(store, job), sh.seen[job.id]) ==>
      && OutsideKept(JobFootprint(store, job), sh.files, next)
      && (OpenedJob(w, at) ==> MayStop(store, job.key, w.log[job.id].request.operation, sh.seen[job.id][0].files, next))
  }

  /** The contract for the end, with a result or by a panic. */
  ghost predicate EndsAsPromised(store: Store, sh: Shared, at: nat, result: Option<OperationResult>)
    requires HasBegun(sh, at) && OpenedJob(sh.state.world, at)
  {
    var w, job := sh.state.world, sh.state.world.jobs[at];
    History(JobFootprint(store, job), sh.seen[job.id]) ==>
      Legal(store, w.log[job.id].request.operation, FileOf(store, sh.seen[job.id][0].files, job.key),
            FileOf(store, sh.files, job.key), result)
  }

  /** `trace` is the whole of an execution that is as `RunOwnedOperation` promises, on a directory that began
      as the job found it; what the job has seen so far is its beginning. */
  ghost predicate Follows(
      store: Store, sh: Shared, at: nat, trace: seq<Moment>, files: Listing, result: OperationResult)
    requires HasBegun(sh, at) && OpenedJob(sh.state.world, at)
  {
    var job := sh.state.world.jobs[at];
    && sh.seen[job.id] <= trace && trace[|sh.seen[job.id]| - 1].files == sh.files
    && Execution.Executed(store, job.key, sh.state.world.log[job.id].request.operation, trace[0].files, trace, 1,
                          files, result)
  }

  /** Each step of its own that comes next keeps the promise. */
  lemma ExecutionKeepsPromise(
      store: Store, sh: Shared, at: nat, trace: seq<Moment>, files: Listing, result: OperationResult)
    requires HasBegun(sh, at) && OpenedJob(sh.state.world, at) && Follows(store, sh, at, trace, files, result)
    requires var n := |sh.seen[sh.state.world.jobs[at].id]|; n < |trace| && trace[n].own
    ensures KeepsPromise(store, sh, at, trace[|sh.seen[sh.state.world.jobs[at].id]|].files)
  {
    var n := |sh.seen[sh.state.world.jobs[at].id]|;
    assert KeepsTo(JobFootprint(store, sh.state.world.jobs[at]), trace[n - 1], trace[n]);
  }

  /** And so does its end; and also a panic, wherever it stops the execution. */
  lemma ExecutionEndsAsPromised(
      store: Store, sh: Shared, at: nat, trace: seq<Moment>, files: Listing, result: OperationResult)
    requires HasBegun(sh, at) && OpenedJob(sh.state.world, at) && Follows(store, sh, at, trace, files, result)
    ensures EndsAsPromised(store, sh, at, None)
    ensures files == sh.files ==> EndsAsPromised(store, sh, at, Some(result))
  {
    var n := |sh.seen[sh.state.world.jobs[at].id]|;
    assert trace[n - 1].files == sh.files && trace[0] == sh.seen[sh.state.world.jobs[at].id][0];
  }

  /** The same for a clean-up: its contract says that the directory keeps a history of its footprint. */
  lemma CleanupKeepsPromise(store: Store, sh: Shared, at: nat, trace: seq<Moment>)
    requires HasBegun(sh, at) && sh.state.world.jobs[at].MaintenanceJob?
    requires History(AllStaging(store.format.suffix), trace)
    requires var seen := sh.seen[sh.state.world.jobs[at].id];
             seen <= trace && seen[|seen| - 1].files == sh.files && |seen| < |trace| && trace[|seen|].own
    ensures KeepsPromise(store, sh, at, trace[|sh.seen[sh.state.world.jobs[at].id]|].files)
  {
    var n := |sh.seen[sh.state.world.jobs[at].id]|;
    assert KeepsTo(AllStaging(store.format.suffix), trace[n - 1], trace[n]);
  }

  ghost predicate SharedCan(store: Store, setup: Setup, sh: Shared, step: SharedStep) {
    var jobs := sh.state.world.jobs;
    match step
    case Meanwhile(inner) => CanStep(setup, sh.state, inner) && !OpensOrEnds(inner) && SendsValidKey(inner)
    case Begin(at) =>
      at < |jobs| && (if jobs[at].OperationJob? then jobs[at].stage.Ready? else jobs[at].id !in sh.seen)
    case Touch(at, next) =>
      && HasBegun(sh, at) && (jobs[at].OperationJob? ==> OpenedJob(sh.state.world, at))
      && KeepsPromise(store, sh, at, next)
    case End(at, result) =>
      HasBegun(sh, at) && OpenedJob(sh.state.world, at) && EndsAsPromised(store, sh, at, result)
    case Neighbour(footprint, next) =>
      Proper(footprint) && footprint.suffix != store.format.suffix && OutsideKept(footprint, sh.files, next)
  }

  function Recorded(seen: map<Id, seq<Moment>>, next: Listing, mover: Option<Id>): map<Id, seq<Moment>> {
    map id | id in seen :: seen[id] + [Moment(next, mover == Some(id))]
  }

  /** The same setup, but an operation may end in any way. */
  function Lenient(setup: Setup): Setup {
    setup.(legal := (operation, before, after, result) => true)
  }

  ghost function SharedNext(store: Store, setup: Setup, sh: Shared, step: SharedStep): Shared
    requires SharedCan(store, setup, sh, step)
  {
    var s, jobs := sh.state, sh.state.world.jobs;
    match step
    case Meanwhile(inner) => sh.(state := Next(setup, s, inner))
    case Begin(at) =>
      Shared(if jobs[at].OperationJob? then Next(setup, s, ByOthers(Observe(at))) else s,
             sh.files, sh.seen[jobs[at].id := [Moment(sh.files, false)]])
    case Touch(at, next) => Shared(s, next, Recorded(sh.seen, next, Some(jobs[at].id)))
    case End(at, result) =>
      var ended := Conclude(at, FileOf(store, sh.files, jobs[at].key), result);
      sh.(state := s.(world := Moved(Lenient(setup), s.world, ended)))
    case Neighbour(_, next) => Shared(s, next, Recorded(sh.seen, next, None))
  }

  // ---------------------------------------------------------------- what every step keeps

  ghost predicate ValidKeys(log: seq<Entry>) {
    forall i | 0 <= i < |log| && log[i].request.Operate? :: log[i].request.key.Valid()
  }

  predicate Begun(status: Status) {
    status.Running? || status.Delivering? || status.Replied?
  }

  ghost predicate SeenInv(sh: Shared) {
    forall id | id in sh.seen ::
      sh.seen[id] != [] && id < |sh.state.world.log| && Begun(sh.state.world.log[id].status)
  }

  /** Nobody else has touched the job's names since it began. */
  ghost predicate Alone(store: Store, sh: Shared, job: Job) {
    && job.id in sh.seen
    && History(JobFootprint(store, job), sh.seen[job.id])
    && sh.seen[job.id][|sh.seen[job.id]| - 1].files == sh.files
  }

  ghost predicate JobSound(store: Store, sh: Shared, job: Job) {
    match job
    case OperationJob(key, id, stage) =>
      stage.Opened? ==>
        && Alone(store, sh, job)
        && FileOf(store, sh.seen[id][0].files, key) == stage.view
        && id < |sh.state.world.log| && sh.state.world.log[id].request.Operate?
        && Interrupted(store, sh.state.world.log[id].request.operation, stage.view, FileOf(store, sh.files, key))
    case MaintenanceJob(id) => id in sh.seen ==> Alone(store, sh, job)
  }

  predicate OpenFor(jobs: seq<Job>, key: KeyHash) {
    exists j :: 0 <= j < |jobs| && jobs[j].OperationJob? && jobs[j].stage.Opened? && jobs[j].key == key
  }

  ghost predicate FilesInv(store: Store, sh: Shared) {
    forall key: KeyHash | key.Valid() && !OpenFor(sh.state.world.jobs, key) ::
      FileOf(store, sh.files, key) == At(sh.state.world.disk, key)
  }

  ghost predicate Sound(store: Store, setup: Setup, sh: Shared) {
    && store.Valid() && setup == StoreSetup(store, setup.maximum, setup.base)
    && Reachable(setup, sh.state) && ValidKeys(sh.state.world.log) && SeenInv(sh)
    && (forall j | 0 <= j < |sh.state.world.jobs| :: JobSound(store, sh, sh.state.world.jobs[j]))
    && FilesInv(store, sh)
  }

  /** Steps other than opening and ending leave the files and the open operations as they are; a job that
      is new is a clean-up whose request was held back until then, or an operation not yet begun. */
  lemma MeanwhileKeepsJobs(setup: Setup, s: State, step: Step, t: State)
    requires Inv(setup, s) && CanStep(setup, s, step) && !OpensOrEnds(step) && t == Next(setup, s, step)
    ensures t.world.disk == s.world.disk
    ensures forall j | 0 <= j < |t.world.jobs| :: OldOrUnbegun(s, t.world.jobs[j])
    ensures forall key :: OpenFor(s.world.jobs, key) ==> OpenFor(t.world.jobs, key)
  {
    match step {
      case ByOthers(move) => MoveKeepsJobs(setup, s, move, t);
      case ByCoordinator(action) => ActionKeepsJobs(setup, s, action, t);
    }
  }

  ghost predicate OldOrUnbegun(s: State, job: Job) {
    || job in s.world.jobs
    || (if job.OperationJob? then job.stage.Ready?
        else job.id < |s.world.log| && !Begun(s.world.log[job.id].status))
  }

  lemma MoveKeepsJobs(setup: Setup, s: State, move: Move, t: State)
    requires RunningInv(s) && MoveEnabled(setup, s.world, move) && !move.Observe? && !move.Conclude?
    requires t == Next(setup, s, ByOthers(move))
    ensures t.world.disk == s.world.disk
    ensures forall j | 0 <= j < |t.world.jobs| :: t.world.jobs[j] in s.world.jobs
    ensures forall key :: OpenFor(s.world.jobs, key) ==> OpenFor(t.world.jobs, key)
  {
    match move {
      case Send(_) =>
      case CloneHandle =>
      case DropHandle =>
      case ConcludeMaintenance(at, _) => RemovalKeepsOpen(s.world.jobs, at, t.world.jobs);
    }
  }

  lemma RemovalKeepsOpen(jobs: seq<Job>, at: nat, rest: seq<Job>)
    requires at < |jobs| && jobs[at].MaintenanceJob? && rest == Without(jobs, at)
    ensures forall j | 0 <= j < |rest| :: rest[j] in jobs
    ensures forall key :: OpenFor(jobs, key) ==> OpenFor(rest, key)
  {
    forall key | OpenFor(jobs, key) ensures OpenFor(rest, key) {
      var j :| 0 <= j < |jobs| && jobs[j].OperationJob? && jobs[j].stage.Opened? && jobs[j].key == key;
      assert rest[if j < at then j else j - 1] == jobs[j];
    }
  }

  lemma StillOpen(jobs: seq<Job>, more: seq<Job>)
    requires jobs <= more
    ensures forall key :: OpenFor(jobs, key) ==> OpenFor(more, key)
  {
    forall key | OpenFor(jobs, key) ensures OpenFor(more, key) {
      var j :| 0 <= j < |jobs| && jobs[j].OperationJob? && jobs[j].stage.Opened? && jobs[j].key == key;
      assert more[j] == jobs[j];
    }
  }

  lemma NewJobIsUnbegun(s: State, t: State, job: Job)
    requires t.world.disk == s.world.disk && OldOrUnbegun(s, job)
    requires t.world.jobs == s.world.jobs || t.world.jobs == s.world.jobs + [job]
    ensures forall j | 0 <= j < |t.world.jobs| :: OldOrUnbegun(s, t.world.jobs[j])
    ensures forall key :: OpenFor(s.world.jobs, key) ==> OpenFor(t.world.jobs, key)
  {
    StillOpen(s.world.jobs, t.world.jobs);
    forall j | 0 <= j < |t.world.jobs| ensures OldOrUnbegun(s, t.world.jobs[j]) {
      assert j < |s.world.jobs| ==> t.world.jobs[j] in s.world.jobs;
    }
  }

  lemma AdvanceKeepsJobs(setup: Setup, s: State, grown: nat, fate: Fate, t: State)
    requires PendingInv(s) && Enabled(setup, s, Advance(grown, fate)) && t == Advanced(setup, s, grown, fate)
    ensures t.world.disk == s.world.disk
    ensures forall j | 0 <= j < |t.world.jobs| :: OldOrUnbegun(s, t.world.jobs[j])
    ensures forall key :: OpenFor(s.world.jobs, key) ==> OpenFor(t.world.jobs, key)
  {
    if s.pending != [] {
      assert s.pending[0] in s.pending;
      NewJobIsUnbegun(s, t, MaintenanceJob(s.pending[0]));
    }
  }

  lemma ActionKeepsJobs(setup: Setup, s: State, action: Action, t: State)
    requires PendingInv(s) && Enabled(setup, s, action) && t == Acted(setup, s, action)
    ensures t.world.disk == s.world.disk
    ensures forall j | 0 <= j < |t.world.jobs| :: OldOrUnbegun(s, t.world.jobs[j])
    ensures forall key :: OpenFor(s.world.jobs, key) ==> OpenFor(t.world.jobs, key)
  {
    match action {
      case Dispatch(key, _, _) => NewJobIsUnbegun(s, t, OperationJob(key, s.queues[key][0], Ready));
      case Advance(grown, fate) => AdvanceKeepsJobs(setup, s, grown, fate, t);
      case _ =>
    }
  }

  lemma MeanwhileKeepsSound(store: Store, setup: Setup, sh: Shared, step: Step, t: Shared)
    requires Sound(store, setup, sh) && SharedCan(store, setup, sh, Meanwhile(step))
    requires t == SharedNext(store, setup, sh, Meanwhile(step))
    ensures Sound(store, setup, t)
  {
    ReachableInv(setup, sh.state);
    StepStaysReachable(setup, sh.state, step);
    StepIsForward(setup, sh.state, step);
    MeanwhileKeepsJobs(setup, sh.state, step, t.state);
    MeanwhileKeepsKeys(setup, sh.state, step, t.state);
    var log, later := sh.state.world.log, t.state.world.log;
    forall id | id in t.seen ensures t.seen[id] != [] && id < |later| && Begun(later[id].status) {
      assert Forward(log[id], later[id], true);
    }
    forall j | 0 <= j < |t.state.world.jobs| ensures JobSound(store, t, t.state.world.jobs[j]) {
      JobStaysSound(store, setup, sh, t, j);
    }
  }

  lemma JobStaysSound(store: Store, setup: Setup, sh: Shared, t: Shared, j: nat)
    requires SeenInv(sh) && RunningInv(sh.state) && t.files == sh.files && t.seen == sh.seen
    requires forall i | 0 <= i < |sh.state.world.jobs| :: JobSound(store, sh, sh.state.world.jobs[i])
    requires j < |t.state.world.jobs| && OldOrUnbegun(sh.state, t.state.world.jobs[j])
    requires LogForward(sh.state.world.log, t.state.world.log, true)
    ensures JobSound(store, t, t.state.world.jobs[j])
  {
    var job := t.state.world.jobs[j];
    if i :| 0 <= i < |sh.state.world.jobs| && sh.state.world.jobs[i] == job {
      assert JobSound(store, sh, sh.state.world.jobs[i]);
      assert JobOk(sh.state.world, sh.state.world.jobs[i]);
      assert Forward(sh.state.world.log[job.id], t.state.world.log[job.id], true);
    }
  }

  lemma MeanwhileKeepsKeys(setup: Setup, s: State, step: Step, t: State)
    requires ValidKeys(s.world.log) && CanStep(setup, s, step) && SendsValidKey(step) && t == Next(setup, s, step)
    ensures ValidKeys(t.world.log)
  {
    if step.ByCoordinator? {
      ActionKeepsKeys(setup, s, step.action, t);
    }
  }

  lemma ActionKeepsKeys(setup: Setup, s: State, action: Action, t: State)
    requires ValidKeys(s.world.log) && Enabled(setup, s, action) && t == Next(setup, s, ByCoordinator(action))
    ensures ValidKeys(t.world.log)
  {
  }

  // ---------------------------------------------------------------- changes of the directory

  lemma HistoryGrows(footprint: Footprint, trace: seq<Moment>, moment: Moment)
    requires History(footprint, trace) && KeepsTo(footprint, trace[|trace| - 1], moment)
    ensures History(footprint, trace + [moment])
  {
    var more := trace + [moment];
    forall t | 0 < t < |more| ensures KeepsTo(footprint, more[t - 1], more[t]) {
      assert t < |trace| ==> KeepsTo(footprint, trace[t - 1], trace[t]);
    }
  }

  /** A change outside its footprint leaves a job as it is. */
  lemma OthersChange(store: Store, sh: Shared, t: Shared, mover: Option<Id>, next: Listing, job: Job)
    requires store.Valid() && ValidKey(job) && JobSound(store, sh, job) && SeenInv(sh) && mover != Some(job.id)
    requires t == Shared(sh.state, next, Recorded(sh.seen, next, mover))
    requires InsideKept(JobFootprint(store, job), sh.files, next)
    ensures JobSound(store, t, job)
  {
    if job.id in sh.seen && (job.OperationJob? ==> job.stage.Opened?) {
      HistoryGrows(JobFootprint(store, job), sh.seen[job.id], Moment(next, false));
      if job.OperationJob? {
        assert Within(FootprintOf(store, job.key), PathOf(store, job.key));
      }
    }
  }

  /** The job's own change, within its footprint, to a state it may be stopped in. */
  lemma OwnChange(store: Store, sh: Shared, t: Shared, at: nat, next: Listing)
    requires store.Valid() && SeenInv(sh) && HasBegun(sh, at) && KeepsPromise(store, sh, at, next)
    requires var job := sh.state.world.jobs[at];
             JobSound(store, sh, job) && (job.OperationJob? ==> OpenedJob(sh.state.world, at))
    requires t == Shared(sh.state, next, Recorded(sh.seen, next, Some(sh.state.world.jobs[at].id)))
    ensures JobSound(store, t, sh.state.world.jobs[at])
  {
    var job := sh.state.world.jobs[at];
    HistoryGrows(JobFootprint(store, job), sh.seen[job.id], Moment(next, true));
  }

  /** A change that keeps out of the canonical files of keys not being worked on keeps them in step. */
  lemma FilesStay(store: Store, sh: Shared, t: Shared)
    requires FilesInv(store, sh) && t.state == sh.state
    requires forall key: KeyHash | key.Valid() && !OpenFor(sh.state.world.jobs, key) ::
               FileOf(store, t.files, key) == FileOf(store, sh.files, key)
    ensures FilesInv(store, t)
  {
  }

  lemma JobKeysAreValid(sh: Shared, at: nat)
    requires RunningInv(sh.state) && ValidKeys(sh.state.world.log) && at < |sh.state.world.jobs|
    ensures ValidKey(sh.state.world.jobs[at])
  {
    assert JobOk(sh.state.world, sh.state.world.jobs[at]);
  }

  lemma JobKeepsFile(store: Store, sh: Shared, at: nat, next: Listing, key: KeyHash)
    requires store.Valid() && at < |sh.state.world.jobs| && key.Valid() && !OpenFor(sh.state.world.jobs, key)
    requires var job := sh.state.world.jobs[at];
             ValidKey(job) && (job.OperationJob? ==> job.stage.Opened?)
             && OutsideKept(JobFootprint(store, job), sh.files, next)
    ensures FileOf(store, next, key) == FileOf(store, sh.files, key)
  {
    var job := sh.state.world.jobs[at];
    if job.OperationJob? {
      assert job.key != key;
      if Hex(job.key.bytes) == Hex(key.bytes) {
        HexIsInjective(job.key.bytes, key.bytes);
      }
      ApartKeeps(JobFootprint(store, job), FootprintOf(store, key), sh.files, next);
      assert Within(FootprintOf(store, key), PathOf(store, key));
    } else {
      StagingKeepsFiles(store, key, sh.files, next);
    }
  }

  lemma TouchKeepsJobs(store: Store, setup: Setup, sh: Shared, at: nat, next: Listing, t: Shared, j: nat)
    requires Sound(store, setup, sh) && SharedCan(store, setup, sh, Touch(at, next))
    requires t == SharedNext(store, setup, sh, Touch(at, next)) && j < |sh.state.world.jobs|
    ensures JobSound(store, t, sh.state.world.jobs[j])
  {
    ReachableInv(setup, sh.state);
    JobKeysAreValid(sh, at);
    JobKeysAreValid(sh, j);
    assert JobSound(store, sh, sh.state.world.jobs[at]) && JobSound(store, sh, sh.state.world.jobs[j]);
    if j == at {
      OwnChange(store, sh, t, at, next);
    } else {
      JobsAreApart(sh.state, at, j);
      JobsKeepApart(store, setup, sh.state, at, j);
      ApartKeeps(JobFootprint(store, sh.state.world.jobs[at]), JobFootprint(store, sh.state.world.jobs[j]),
                 sh.files, next);
      OthersChange(store, sh, t, Some(sh.state.world.jobs[at].id), next, sh.state.world.jobs[j]);
    }
  }

  lemma TouchKeepsSound(store: Store, setup: Setup, sh: Shared, at: nat, next: Listing, t: Shared)
    requires Sound(store, setup, sh) && SharedCan(store, setup, sh, Touch(at, next))
    requires t == SharedNext(store, setup, sh, Touch(at, next))
    ensures Sound(store, setup, t)
  {
    ReachableInv(setup, sh.state);
    JobKeysAreValid(sh, at);
    assert JobSound(store, sh, sh.state.world.jobs[at]);
    forall j | 0 <= j < |t.state.world.jobs| ensures JobSound(store, t, t.state.world.jobs[j]) {
      TouchKeepsJobs(store, setup, sh, at, next, t, j);
    }
    forall key: KeyHash | key.Valid() && !OpenFor(sh.state.world.jobs, key)
      ensures FileOf(store, t.files, key) == FileOf(store, sh.files, key)
    {
      JobKeepsFile(store, sh, at, next, key);
    }
    FilesStay(store, sh, t);
  }

  lemma NeighbourKeepsSound(store: Store, setup: Setup, sh: Shared, footprint: Footprint, next: Listing, t: Shared)
    requires Sound(store, setup, sh) && SharedCan(store, setup, sh, Neighbour(footprint, next))
    requires t == SharedNext(store, setup, sh, Neighbour(footprint, next))
    ensures Sound(store, setup, t)
  {
    ReachableInv(setup, sh.state);
    forall j | 0 <= j < |t.state.world.jobs| ensures JobSound(store, t, t.state.world.jobs[j]) {
      JobKeysAreValid(sh, j);
      assert JobSound(store, sh, sh.state.world.jobs[j]);
      ApartKeeps(footprint, JobFootprint(store, sh.state.world.jobs[j]), sh.files, next);
      OthersChange(store, sh, t, None, next, sh.state.world.jobs[j]);
    }
    forall key: KeyHash | key.Valid() && !OpenFor(sh.state.world.jobs, key)
      ensures FileOf(store, t.files, key) == FileOf(store, sh.files, key)
    {
      ApartKeeps(footprint, FootprintOf(store, key), sh.files, next);
      assert Within(FootprintOf(store, key), PathOf(store, key));
    }
    FilesStay(store, sh, t);
  }

  // ---------------------------------------------------------------- opening and ending

  /** The clean-up sees the directory as it is; what other jobs have seen stays. */
  lemma StartingKeepsJobs(store: Store, sh: Shared, at: nat, t: Shared, j: nat)
    requires TokenInv(sh.state) && RunningInv(sh.state) && at < |sh.state.world.jobs| && j < |sh.state.world.jobs|
    requires sh.state.world.jobs[at].MaintenanceJob? && JobSound(store, sh, sh.state.world.jobs[j])
    requires t == sh.(seen := sh.seen[sh.state.world.jobs[at].id := [Moment(sh.files, false)]])
    ensures JobSound(store, t, sh.state.world.jobs[j])
  {
    if j != at {
      JobsAreApart(sh.state, at, j);
    }
  }

  lemma StartingKeepsSound(store: Store, setup: Setup, sh: Shared, at: nat, t: Shared)
    requires Sound(store, setup, sh) && at < |sh.state.world.jobs| && sh.state.world.jobs[at].MaintenanceJob?
    requires t == sh.(seen := sh.seen[sh.state.world.jobs[at].id := [Moment(sh.files, false)]])
    ensures Sound(store, setup, t)
  {
    ReachableInv(setup, sh.state);
    assert JobOk(sh.state.world, sh.state.world.jobs[at]);
    forall j | 0 <= j < |t.state.world.jobs| ensures JobSound(store, t, t.state.world.jobs[j]) {
      StartingKeepsJobs(store, sh, at, t, j);
    }
    FilesStay(store, sh, t);
  }

  lemma BeginMaintenanceKeepsSound(store: Store, setup: Setup, sh: Shared, at: nat, t: Shared)
    requires Sound(store, setup, sh) && SharedCan(store, setup, sh, Begin(at))
    requires sh.state.world.jobs[at].MaintenanceJob? && t == SharedNext(store, setup, sh, Begin(at))
    ensures Sound(store, setup, t)
  {
    StartingKeepsSound(store, setup, sh, at, t);
  }

  /** What beginning an operation amounts to. */
  ghost predicate Opening(store: Store, sh: Shared, at: nat, t: Shared) {
    var w, later := sh.state.world, t.state.world;
    && at < |w.jobs| && w.jobs[at].OperationJob? && w.jobs[at].stage.Ready?
    && later.jobs == w.jobs[at := w.jobs[at].(stage := Opened(At(w.disk, w.jobs[at].key)))]
    && later.log == w.log && later.disk == w.disk
    && t.files == sh.files && t.seen == sh.seen[w.jobs[at].id := [Moment(sh.files, false)]]
  }

  lemma BeginIsOpening(store: Store, setup: Setup, sh: Shared, at: nat, t: Shared)
    requires SharedCan(store, setup, sh, Begin(at)) && sh.state.world.jobs[at].OperationJob?
    requires t == SharedNext(store, setup, sh, Begin(at))
    ensures Opening(store, sh, at, t)
  {
  }

  lemma NotOpenYet(s: State, at: nat)
    requires TokenInv(s) && RunningInv(s) && at < |s.world.jobs|
    requires s.world.jobs[at].OperationJob? && s.world.jobs[at].stage.Ready?
    ensures !OpenFor(s.world.jobs, s.world.jobs[at].key)
  {
    var jobs, key := s.world.jobs, s.world.jobs[at].key;
    if i :| 0 <= i < |jobs| && jobs[i].OperationJob? && jobs[i].stage.Opened? && jobs[i].key == key {
      JobsAreApart(s, at, i);
    }
  }

  lemma OpeningKeepsOwn(store: Store, sh: Shared, at: nat, t: Shared)
    requires FilesInv(store, sh) && TokenInv(sh.state) && RunningInv(sh.state) && Opening(store, sh, at, t)
    requires ValidKey(sh.state.world.jobs[at])
    ensures JobSound(store, t, t.state.world.jobs[at])
  {
    NotOpenYet(sh.state, at);
    assert JobOk(sh.state.world, sh.state.world.jobs[at]);
    assert FileOf(store, sh.files, sh.state.world.jobs[at].key)
           == At(sh.state.world.disk, sh.state.world.jobs[at].key);
  }

  lemma OpeningKeepsOthers(store: Store, sh: Shared, at: nat, t: Shared, j: nat)
    requires TokenInv(sh.state) && RunningInv(sh.state) && Opening(store, sh, at, t)
    requires j < |sh.state.world.jobs| && j != at && JobSound(store, sh, sh.state.world.jobs[j])
    ensures JobSound(store, t, t.state.world.jobs[j])
  {
    JobsAreApart(sh.state, at, j);
  }

  lemma OpeningKeepsFiles(store: Store, sh: Shared, at: nat, t: Shared)
    requires FilesInv(store, sh) && Opening(store, sh, at, t)
    ensures FilesInv(store, t)
  {
    var jobs, later := sh.state.world.jobs, t.state.world.jobs;
    forall key | OpenFor(jobs, key) ensures OpenFor(later, key) {
      var j :| 0 <= j < |jobs| && jobs[j].OperationJob? && jobs[j].stage.Opened? && jobs[j].key == key;
      assert later[j] == jobs[j];
    }
  }

  lemma OpeningKeepsSeen(store: Store, sh: Shared, at: nat, t: Shared)
    requires SeenInv(sh) && RunningInv(sh.state) && Opening(store, sh, at, t)
    ensures SeenInv(t)
  {
    assert JobOk(sh.state.world, sh.state.world.jobs[at]);
  }

  lemma BeginOperationKeepsSound(store: Store, setup: Setup, sh: Shared, at: nat, t: Shared)
    requires Sound(store, setup, sh) && SharedCan(store, setup, sh, Begin(at))
    requires sh.state.world.jobs[at].OperationJob? && t == SharedNext(store, setup, sh, Begin(at))
    ensures Sound(store, setup, t)
  {
    ReachableInv(setup, sh.state);
    StepStaysReachable(setup, sh.state, ByOthers(Observe(at)));
    BeginIsOpening(store, setup, sh, at, t);
    JobKeysAreValid(sh, at);
    OpeningKeepsOwn(store, sh, at, t);
    OpeningKeepsFiles(store, sh, at, t);
    OpeningKeepsSeen(store, sh, at, t);
    forall j | 0 <= j < |t.state.world.jobs| ensures JobSound(store, t, t.state.world.jobs[j]) {
      if j != at {
        OpeningKeepsOthers(store, sh, at, t, j);
      }
    }
  }

  /** What ending an operation amounts to. */
  ghost predicate Ending(store: Store, sh: Shared, at: nat, t: Shared) {
    var w, later := sh.state.world, t.state.world;
    && OpenedJob(w, at) && later.jobs == Without(w.jobs, at)
    && later.disk == Put(w.disk, w.jobs[at].key, FileOf(store, sh.files, w.jobs[at].key))
    && t.files == sh.files && t.seen == sh.seen
    && |later.log| == |w.log|
    && (forall i | 0 <= i < |w.log| ::
          later.log[i].request == w.log[i].request
          && (later.log[i].status == w.log[i].status || Begun(later.log[i].status)))
  }

  /** The end of an execution is a step of the machine: its contract makes it legal there. */
  lemma EndIsAStep(store: Store, setup: Setup, sh: Shared, at: nat, result: Option<OperationResult>, t: Shared)
    requires Sound(store, setup, sh) && SharedCan(store, setup, sh, End(at, result))
    requires t == SharedNext(store, setup, sh, End(at, result))
    ensures var after := FileOf(store, sh.files, sh.state.world.jobs[at].key);
            Stepped(setup, sh.state, ByOthers(Conclude(at, after, result))) == Some(t.state)
  {
    assert JobSound(store, sh, sh.state.world.jobs[at]);
  }

  lemma EndIsEnding(store: Store, setup: Setup, sh: Shared, at: nat, result: Option<OperationResult>, t: Shared)
    requires SharedCan(store, setup, sh, End(at, result)) && t == SharedNext(store, setup, sh, End(at, result))
    ensures Ending(store, sh, at, t)
  {
  }

  lemma EndingKeepsFiles(store: Store, sh: Shared, at: nat, t: Shared)
    requires FilesInv(store, sh) && Ending(store, sh, at, t)
    ensures FilesInv(store, t)
  {
    var jobs, rest := sh.state.world.jobs, t.state.world.jobs;
    forall key | key != jobs[at].key && OpenFor(jobs, key) ensures OpenFor(rest, key) {
      var j :| 0 <= j < |jobs| && jobs[j].OperationJob? && jobs[j].stage.Opened? && jobs[j].key == key;
      assert rest[if j < at then j else j - 1] == jobs[j];
    }
  }

  lemma EndingKeepsJobs(store: Store, sh: Shared, at: nat, t: Shared, j: nat)
    requires Ending(store, sh, at, t) && j < |t.state.world.jobs|
    requires forall i | 0 <= i < |sh.state.world.jobs| :: JobSound(store, sh, sh.state.world.jobs[i])
    ensures JobSound(store, t, t.state.world.jobs[j])
  {
    var i := if j < at then j else j + 1;
    assert t.state.world.jobs[j] == sh.state.world.jobs[i];
    assert JobSound(store, sh, sh.state.world.jobs[i]);
  }

  lemma EndKeepsSound(store: Store, setup: Setup, sh: Shared, at: nat, result: Option<OperationResult>, t: Shared)
    requires Sound(store, setup, sh) && SharedCan(store, setup, sh, End(at, result))
    requires t == SharedNext(store, setup, sh, End(at, result))
    ensures Sound(store, setup, t)
  {
    EndIsAStep(store, setup, sh, at, result, t);
    StepStaysReachable(setup, sh.state,
                       ByOthers(Conclude(at, FileOf(store, sh.files, sh.state.world.jobs[at].key), result)));
    EndIsEnding(store, setup, sh, at, result, t);
    EndingKeepsFiles(store, sh, at, t);
    forall j | 0 <= j < |t.state.world.jobs| ensures JobSound(store, t, t.state.world.jobs[j]) {
      EndingKeepsJobs(store, sh, at, t, j);
    }
  }

  // ---------------------------------------------------------------- every run

  lemma SharedStepKeepsSound(store: Store, setup: Setup, sh: Shared, step: SharedStep, t: Shared)
    requires Sound(store, setup, sh) && SharedCan(store, setup, sh, step) && t == SharedNext(store, setup, sh, step)
    ensures Sound(store, setup, t)
  {
    match step {
      case Meanwhile(inner) => MeanwhileKeepsSound(store, setup, sh, inner, t);
      case Begin(at) =>
        if sh.state.world.jobs[at].OperationJob? {
          BeginOperationKeepsSound(store, setup, sh, at, t);
        } else {
          BeginMaintenanceKeepsSound(store, setup, sh, at, t);
        }
      case Touch(at, next) => TouchKeepsSound(store, setup, sh, at, next, t);
      case End(at, result) => EndKeepsSound(store, setup, sh, at, result, t);
      case Neighbour(footprint, next) => NeighbourKeepsSound(store, setup, sh, footprint, next, t);
    }
  }

  ghost predicate IsSharedRun(store: Store, setup: Setup, sh: Shared, steps: seq<SharedStep>)
    decreases |steps|
  {
    steps == []
    || (SharedCan(store, setup, sh, steps[0])
        && IsSharedRun(store, setup, SharedNext(store, setup, sh, steps[0]), steps[1..]))
  }

  ghost function SharedAfter(store: Store, setup: Setup, sh: Shared, steps: seq<SharedStep>): Shared
    requires IsSharedRun(store, setup, sh, steps)
    decreases |steps|
  {
    if steps == [] then sh else SharedAfter(store, setup, SharedNext(store, setup, sh, steps[0]), steps[1..])
  }

  lemma {:induction false} SharedRunKeepsSound(store: Store, setup: Setup, sh: Shared, steps: seq<SharedStep>)
    requires Sound(store, setup, sh) && IsSharedRun(store, setup, sh, steps)
    ensures Sound(store, setup, SharedAfter(store, setup, sh, steps))
    decreases |steps|
  {
    if steps == [] {
    } else {
      var t := SharedNext(store, setup, sh, steps[0]);
      SharedStepKeepsSound(store, setup, sh, steps[0], t);
      SharedRunKeepsSound(store, setup, t, steps[1..]);
    }
  }

  /** A store freshly opened on a directory. */
  ghost predicate Opens(store: Store, setup: Setup, sh: Shared) {
    && store.Valid() && 1 <= setup.maximum && setup == StoreSetup(store, setup.maximum, setup.base)
    && sh.state == Initial(setup) && sh.seen == map[]
    && (forall key: KeyHash | key.Valid() :: FileOf(store, sh.files, key) == At(setup.base, key))
  }

  /** Some interleaving of system calls leads from a freshly opened store to `sh`. */
  ghost predicate Arises(store: Store, setup: Setup, sh: Shared) {
    exists start, steps :: Opens(store, setup, start) && IsSharedRun(store, setup, start, steps)
                           && SharedAfter(store, setup, start, steps) == sh
  }

  lemma ArisesSound(store: Store, setup: Setup, sh: Shared)
    requires Arises(store, setup, sh)
    ensures Sound(store, setup, sh)
  {
    var start, steps :| Opens(store, setup, start) && IsSharedRun(store, setup, start, steps)
                        && SharedAfter(store, setup, start, steps) == sh;
    assert IsRun(setup, Initial(setup), []) && After(setup, Initial(setup), []) == Initial(setup);
    SharedRunKeepsSound(store, setup, start, steps);
  }

  /** However the jobs' steps in the directory are interleaved with each other's, with other stores' and
      with all threads': the threads are in a state that the machine of Protocol.dfy reaches, in which an
      operation opens and ends in one step each. So whatever is proved of that machine holds. */
  lemma JobsActAsOne(store: Store, setup: Setup, sh: Shared)
    requires Arises(store, setup, sh)
    ensures Reachable(setup, sh.state)
  {
    ArisesSound(store, setup, sh);
  }

  /** And nobody touches the names of an operation while it is under way, which is all that its contract
      asks of others. */
  lemma NobodyInterferes(store: Store, setup: Setup, sh: Shared, at: nat)
    requires Arises(store, setup, sh) && HasBegun(sh, at)
    requires sh.state.world.jobs[at].OperationJob? ==> sh.state.world.jobs[at].stage.Opened?
    ensures History(JobFootprint(store, sh.state.world.jobs[at]), sh.seen[sh.state.world.jobs[at].id])
  {
    ArisesSound(store, setup, sh);
    assert JobSound(store, sh, sh.state.world.jobs[at]);
  }

  /** At every moment, every key's file in the directory is that of the plain store of Refinement.dfy; or an
      operation on the key is under way, and the file is the one it found or its complete replacement. This
      is what a reader finds, and what is left when the process is stopped. */
  lemma EveryFileIsPlainOrUnderWay(store: Store, setup: Setup, sh: Shared, key: KeyHash)
    requires Arises(store, setup, sh) && key.Valid()
    ensures var log, file := sh.state.world.log, FileOf(store, sh.files, key);
            var plain := At(PlainStore(setup.base, Calls(log, |log|)), key);
            if OpenFor(sh.state.world.jobs, key) then
              exists id :: 0 <= id < |log| && Invariant.OfKey(log, id, key) && log[id].status.Running?
                           && Interrupted(store, log[id].request.operation, plain, file)
            else file == plain
  {
    ArisesSound(store, setup, sh);
    RefinesThePlainStore(setup, sh.state);
    ReachableInv(setup, sh.state);
    var jobs := sh.state.world.jobs;
    if OpenFor(jobs, key) {
      var j :| 0 <= j < |jobs| && jobs[j].OperationJob? && jobs[j].stage.Opened? && jobs[j].key == key;
      assert JobOk(sh.state.world, jobs[j]) && JobSound(store, sh, jobs[j]);
      assert Invariant.OfKey(sh.state.world.log, jobs[j].id, key);
    }
  }
}
