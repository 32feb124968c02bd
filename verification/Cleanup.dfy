/** The clean-up of stale staging files (`cleanup_stale_files` in `src/filesystem/mod.rs`). Its footprint is
    all staging names of the store; others may work on all other names of the directory meanwhile. */
module Cleanup {
  import opened Config
  import opened Directories
  import opened FileNames
  import opened Operations
  import opened Results

  /** The names of staging files that were removed, left for being too young, or could not be removed; and
      the number of directory entries that could not be read at all. */
  datatype CleanupReport = CleanupReport(
    removed: set<string>, skipped: set<string>, failures: set<string>, unreadable: nat)

  /** What the directory entries show: which cannot be read, which are regular files, and which are old. */
  datatype Entries = Entries(hidden: set<string>, regular: set<string>, stale: set<string>)

  predicate Removable(entries: Entries, name: string) {
    name in entries.regular && name in entries.stale
  }

  ghost predicate Ready(store: Store, dir: Directory)
    reads dir
  {
    store.Valid() && dir.footprint == AllStaging(store.format.suffix) && dir.Valid()
  }

  /** The report accounts for each entry seen that has a staging name exactly once, and for nothing else:
      skipped are exactly the young ones, failed all that are not regular and those whose deletion failed,
      removed the others. Removed files are gone, and all other staging files, but those whose deletion
      failed, are what they were. */
  ghost predicate Accounts(
      store: Store, origin: Listing, files: Listing, entries: Entries, seen: set<string>, report: CleanupReport)
  {
    && report.unreadable == |seen * entries.hidden|
    && forall name :: Accounted(store, origin, files, entries, seen, report, name)
  }

  ghost predicate Accounted(
      store: Store, origin: Listing, files: Listing, entries: Entries, seen: set<string>, report: CleanupReport,
      name: string)
  {
    var owned := IsOwnedTemporaryFilename(name, store.format.suffix);
    if name in seen && name !in entries.hidden && owned then
      && Place(entries, name, report)
      && (name in report.removed ==> name !in files)
      && (name in report.skipped || name !in entries.regular ==> Look(files, name) == Look(origin, name))
    else
      && name !in report.removed && name !in report.skipped && name !in report.failures
      && (owned ==> Look(files, name) == Look(origin, name))
  }

  ghost predicate Place(entries: Entries, name: string, report: CleanupReport) {
    && (name in report.skipped <==> name in entries.regular && name !in entries.stale)
    && (name in report.removed ==> Removable(entries, name))
    && (name in report.failures <==> name !in report.removed && name !in report.skipped)
  }

  /** No deletion failed. */
  ghost predicate AllDeleted(entries: Entries, report: CleanupReport) {
    forall name | name in report.failures :: name !in entries.regular
  }

  /** `cleanup_stale_files`. `listed` is what reading the directory has yielded. */
  method CleanupStaleFiles(store: Store, dir: Directory, entries: Entries)
    returns (r: Result<CleanupReport>, listed: set<string>)
    requires Ready(store, dir)
    modifies dir
    ensures Ready(store, dir) && old(dir.trace) <= dir.trace
    ensures forall name | IsOwnedTemporaryFilename(name, store.format.suffix) ::
              name in listed <==> name in old(dir.files)
    ensures r.Ok? ==> Accounts(store, old(dir.files), dir.files, entries, listed, r.value)
    ensures r.Err? ==>
              r.error == Io(EnumerateTemporaryFiles) && InsideKept(dir.footprint, old(dir.files), dir.files)
    ensures dir.faults == old(dir.faults) ==> r.Ok? && AllDeleted(entries, r.value)
    ensures r.Ok? ==> r.value.unreadable == |listed * entries.hidden|
    ensures r.Ok? ==>
              forall name | name in listed - entries.hidden && IsOwnedTemporaryFilename(name, store.format.suffix) ::
                && (name in r.value.skipped <==> name in entries.regular && name !in entries.stale)
                && (name in r.value.removed ==> name in entries.regular && name in entries.stale && name !in dir.files)
                && (name in r.value.failures <==> name !in r.value.removed && name !in r.value.skipped)
                && (name in entries.regular && name in entries.stale && dir.faults == old(dir.faults) ==>
                      name in r.value.removed)
                && (name in r.value.skipped || name !in entries.regular ==>
                      Look(dir.files, name) == Look(old(dir.files), name))
  {
    ghost var origin := dir.files;
    listed := ReadEntries(store, dir);
    var readable := dir.Attempt();
    if !readable {
      return Err(Io(EnumerateTemporaryFiles)), listed;
    }
    var report := CleanAll(store, dir, entries, listed, origin);
    forall name | name in listed - entries.hidden && IsOwnedTemporaryFilename(name, store.format.suffix)
      ensures Place(entries, name, report) && (name in report.removed ==> name !in dir.files)
      ensures name in report.skipped || name !in entries.regular ==> Look(dir.files, name) == Look(origin, name)
    {
      assert Accounted(store, origin, dir.files, entries, listed, report, name);
    }
    return Ok(report), listed;
  }

  /** `read_dir`: the entries as they are at some moment. */
  method ReadEntries(store: Store, dir: Directory) returns (listed: set<string>)
    requires Ready(store, dir)
    modifies dir
    ensures Ready(store, dir) && old(dir.trace) <= dir.trace && dir.faults == old(dir.faults)
    ensures InsideKept(dir.footprint, old(dir.files), dir.files)
    ensures forall name | IsOwnedTemporaryFilename(name, store.format.suffix) ::
              name in listed <==> name in old(dir.files)
  {
    ghost var origin := dir.files;
    dir.Others();
    listed := dir.files.Keys;
    forall name | IsOwnedTemporaryFilename(name, store.format.suffix)
      ensures name in listed <==> name in origin
    {
      assert Within(dir.footprint, name);
      assert Look(dir.files, name) == Look(origin, name);
    }
  }

  /** The loop over the entries. */
  method CleanAll(store: Store, dir: Directory, entries: Entries, listed: set<string>, ghost origin: Listing)
    returns (report: CleanupReport)
    requires Ready(store, dir) && InsideKept(dir.footprint, origin, dir.files)
    requires forall name | name in listed && IsOwnedTemporaryFilename(name, store.format.suffix) :: name in origin
    modifies dir
    ensures Ready(store, dir) && old(dir.trace) <= dir.trace && old(dir.faults) <= dir.faults
    ensures Accounts(store, origin, dir.files, entries, listed, report)
    ensures dir.faults == old(dir.faults) ==> AllDeleted(entries, report)
  {
    report := CleanupReport({}, {}, {}, 0);
    var rest := listed;
    ghost var seen := {};
    NothingSeen(store, origin, dir.files, entries, report);
    while rest != {}
      invariant Ready(store, dir) && old(dir.trace) <= dir.trace && old(dir.faults) <= dir.faults
      invariant seen + rest == listed && seen !! rest
      invariant Accounts(store, origin, dir.files, entries, seen, report)
      invariant dir.faults == old(dir.faults) ==> AllDeleted(entries, report)
      decreases |rest|
    {
      var name :| name in rest;
      assert name in listed;
      rest := rest - {name};
      report := CleanOne(store, dir, entries, name, report, origin, seen);
      seen := seen + {name};
    }
    assert seen == listed;
  }

  lemma NothingSeen(store: Store, origin: Listing, files: Listing, entries: Entries, report: CleanupReport)
    requires InsideKept(AllStaging(store.format.suffix), origin, files) && report == CleanupReport({}, {}, {}, 0)
    ensures Accounts(store, origin, files, entries, {}, report)
  {
    assert {} * entries.hidden == {};
    forall name ensures Accounted(store, origin, files, entries, {}, report, name) {
      assert Within(AllStaging(store.format.suffix), name) ==> Look(files, name) == Look(origin, name);
    }
  }

  /** One directory entry. */
  method CleanOne(
      store: Store, dir: Directory, entries: Entries, name: string, report: CleanupReport, ghost origin: Listing,
      ghost seen: set<string>)
    returns (next: CleanupReport)
    requires Ready(store, dir) && name !in seen
    requires IsOwnedTemporaryFilename(name, store.format.suffix) ==> name in origin
    requires Accounts(store, origin, dir.files, entries, seen, report)
    modifies dir
    ensures Ready(store, dir) && old(dir.trace) <= dir.trace && old(dir.faults) <= dir.faults
    ensures Accounts(store, origin, dir.files, entries, seen + {name}, next)
    ensures AllDeleted(entries, report) ==> AllDeleted(entries, next) || old(dir.faults) < dir.faults
  {
    ghost var before := dir.files;
    assert Accounted(store, origin, before, entries, seen, report, name);
    next := report;
    if name in entries.hidden {
      next := report.(unreadable := report.unreadable + 1);
    } else if !IsOwnedTemporaryFilename(name, store.format.suffix) {
    } else if name !in entries.regular {
      next := report.(failures := report.failures + {name});
    } else if name !in entries.stale {
      next := report.(skipped := report.skipped + {name});
    } else {
      var deleted := Delete(store, dir, name);
      next := if deleted then report.(removed := report.removed + {name})
              else report.(failures := report.failures + {name});
    }
    OneMore(store, origin, before, dir.files, entries, seen, report, next, name);
  }

  /** A file that is there is deleted, unless that fails. */
  method Delete(store: Store, dir: Directory, name: string) returns (ok: bool)
    requires Ready(store, dir) && IsOwnedTemporaryFilename(name, store.format.suffix) && name in dir.files
    modifies dir
    ensures Ready(store, dir) && old(dir.trace) <= dir.trace
    ensures dir.faults == old(dir.faults) + if ok then 0 else 1
    ensures ok ==> name !in dir.files
    ensures SameBut(store, old(dir.files), dir.files, name)
  {
    ghost var before := dir.files;
    var deleted;
    ghost var happened;
    deleted, happened := dir.DeleteFile(name);
    ghost var after := if happened then before - {name} else before;
    forall other | other == name || IsOwnedTemporaryFilename(other, store.format.suffix)
      ensures Look(dir.files, other) == Look(after, other)
    {
      assert Within(dir.footprint, other);
    }
    assert Look(dir.files, name) == Look(after, name);
    return deleted.Done?;
  }

  /** Other staging files are what they were. */
  ghost predicate SameBut(store: Store, before: Listing, files: Listing, name: string) {
    forall other | IsOwnedTemporaryFilename(other, store.format.suffix) && other != name ::
      Look(files, other) == Look(before, other)
  }

  /** The reports agree about all other names. */
  ghost predicate AgreeBut(report: CleanupReport, next: CleanupReport, name: string) {
    && report.removed - {name} == next.removed - {name}
    && report.skipped - {name} == next.skipped - {name}
    && report.failures - {name} == next.failures - {name}
  }

  lemma OneMore(
      store: Store, origin: Listing, before: Listing, files: Listing, entries: Entries, seen: set<string>,
      report: CleanupReport, next: CleanupReport, name: string)
    requires Accounts(store, origin, before, entries, seen, report) && name !in seen
    requires SameBut(store, before, files, name) && AgreeBut(report, next, name)
    requires next.unreadable == report.unreadable + if name in entries.hidden then 1 else 0
    requires Accounted(store, origin, files, entries, seen + {name}, next, name)
    ensures Accounts(store, origin, files, entries, seen + {name}, next)
  {
    if name in entries.hidden {
      assert (seen + {name}) * entries.hidden == seen * entries.hidden + {name};
    } else {
      assert (seen + {name}) * entries.hidden == seen * entries.hidden;
    }
    forall other ensures Accounted(store, origin, files, entries, seen + {name}, next, other) {
      assert Accounted(store, origin, before, entries, seen, report, other);
      if other != name {
        assert other in report.removed <==> other in report.removed - {name};
        assert other in report.skipped <==> other in report.skipped - {name};
        assert other in report.failures <==> other in report.failures - {name};
        assert other in next.removed <==> other in next.removed - {name};
        assert other in next.skipped <==> other in next.skipped - {name};
        assert other in next.failures <==> other in next.failures - {name};
      }
    }
  }

  /** A clean-up's own steps never touch a canonical or a quarantined file, of this store or of any other
      store in the same directory. */
  lemma CleanupKeepsData(suffix: string, trace: seq<Moment>, t: nat, hash: string, other: string, identifier: string)
    requires ValidSuffix(suffix) && ValidSuffix(other) && Identifier(hash) && Identifier(identifier)
    requires History(AllStaging(suffix), trace) && 0 < t < |trace| && trace[t].own
    ensures Look(trace[t].files, CanonicalName(hash, other)) == Look(trace[t - 1].files, CanonicalName(hash, other))
    ensures Look(trace[t].files, QuarantineName(hash, other, identifier))
            == Look(trace[t - 1].files, QuarantineName(hash, other, identifier))
  {
    CanonicalNamesAreNotOwned(hash, other, suffix);
    QuarantineNamesAreNotOwned(hash, other, identifier, suffix);
    assert KeepsTo(AllStaging(suffix), trace[t - 1], trace[t]);
  }

  /** Nor do they touch the staging file of a store with another suffix. */
  lemma CleanupKeepsOtherStaging(suffix: string, trace: seq<Moment>, t: nat, name: string, other: string)
    requires ValidSuffix(suffix) && ValidSuffix(other) && other != suffix && IsOwnedTemporaryFilename(name, other)
    requires History(AllStaging(suffix), trace) && 0 < t < |trace| && trace[t].own
    ensures Look(trace[t].files, name) == Look(trace[t - 1].files, name)
  {
    if IsOwnedTemporaryFilename(name, suffix) {
      OwnedByOneSuffix(name, other, suffix);
    }
    assert KeepsTo(AllStaging(suffix), trace[t - 1], trace[t]);
  }
}
