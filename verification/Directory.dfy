/** The store's directory as one operation works on it. The operation has a footprint: the names it may
    create, change or remove. Between any two of its calls others may do anything to all other names. The
    directory remembers every state it went through, and whose step led there; every call may fail. */
module Directories {
  import opened Bytes
  import opened FileNames
  import opened Operations
  import opened Results

  type Listing = map<string, Blob>

  function Look(files: Listing, name: string): Option<Blob> {
    if name in files then Some(files[name]) else None
  }

  function Renamed(files: Listing, from: string, to: string): Listing
    requires from in files
  {
    (files - {from})[to := files[from]]
  }

  /** The names of one key of a store, or all staging names of a store. */
  datatype Footprint = OfKey(hash: string, suffix: string) | AllStaging(suffix: string)

  predicate Within(footprint: Footprint, name: string) {
    match footprint
    case OfKey(hash, suffix) => NameOf(name, hash, suffix)
    case AllStaging(suffix) => IsOwnedTemporaryFilename(name, suffix)
  }

  /** A state of the directory, and whether the operation's own step led to it. */
  datatype Moment = Moment(files: Listing, own: bool)

  ghost predicate InsideKept(footprint: Footprint, before: Listing, after: Listing) {
    forall name | Within(footprint, name) :: Look(after, name) == Look(before, name)
  }

  ghost predicate OutsideKept(footprint: Footprint, before: Listing, after: Listing) {
    forall name | !Within(footprint, name) :: Look(after, name) == Look(before, name)
  }

  /** The operation keeps to its footprint, and the others keep out of it. */
  ghost predicate KeepsTo(footprint: Footprint, before: Moment, after: Moment) {
    if after.own then OutsideKept(footprint, before.files, after.files)
    else InsideKept(footprint, before.files, after.files)
  }

  ghost predicate History(footprint: Footprint, trace: seq<Moment>) {
    trace != [] && forall t | 0 < t < |trace| :: KeepsTo(footprint, trace[t - 1], trace[t])
  }

  /** Within the footprint, the states from `from` on are `before` or `next`, and `files` is `next`. */
  ghost predicate Went(
      footprint: Footprint, before: Listing, next: Listing, trace: seq<Moment>, from: nat, files: Listing)
  {
    && InsideKept(footprint, next, files)
    && forall t | from <= t < |trace| ::
         InsideKept(footprint, before, trace[t].files) || InsideKept(footprint, next, trace[t].files)
  }

  /** How a system call ends. */
  datatype Access = Done | Missing | Occupied | Failed

  class Directory {
    const footprint: Footprint
    var files: Listing
    ghost var trace: seq<Moment>    // every state so far; the present one is the last
    ghost var faults: nat           // how many calls have failed
    ghost var unflushed: set<string>    // files that were written and not flushed since
    ghost var unsynced: bool            // a file was renamed and the directory not synced since
    ghost var refreshed: set<string>    // files whose time stamp was set to the present
    ghost var available: nat            // how often the directory itself was found to be there

    ghost predicate Valid()
      reads this
    {
      History(footprint, trace) && trace[|trace| - 1].files == files
    }

    constructor (footprint: Footprint, files: Listing)
      ensures Valid() && this.footprint == footprint && this.files == files && trace == [Moment(files, false)]
      ensures unflushed == {} && !unsynced && refreshed == {} && available == 0
    {
      this.footprint, this.files := footprint, files;
      trace, faults, unflushed, unsynced := [Moment(files, false)], 0, {}, false;
      refreshed, available := {}, 0;
    }

    /** A call fails. */
    method Blame()
      modifies this`faults
      ensures faults == old(faults) + 1
    {
      faults := faults + 1;
    }

    method Become(next: Listing, own: bool)
      requires Valid() && KeepsTo(footprint, Moment(files, false), Moment(next, own))
      modifies this`files, this`trace
      ensures Valid() && files == next && trace == old(trace) + [Moment(next, own)]
    {
      files := next;
      trace := trace + [Moment(next, own)];
    }

    /** Others create, change and remove files of other names. */
    method Others()
      requires Valid()
      modifies this`files, this`trace
      ensures Valid() && old(trace) <= trace
      ensures Went(footprint, old(files), old(files), trace, |old(trace)|, files)
    {
      var rounds: nat := *;
      while rounds > 0
        invariant Valid() && old(trace) <= trace
        invariant Went(footprint, old(files), old(files), trace, |old(trace)|, files)
      {
        rounds := rounds - 1;
        var name: string := *;
        var content: Option<Blob> := *;
        if !Within(footprint, name) {
          var next := if content.Some? then files[name := content.value] else files - {name};
          Become(next, false);
        }
      }
    }

    /** `CREATE_NEW`: an empty file, only where there is none. */
    method CreateNew(name: string) returns (r: Access)
      requires Valid() && Within(footprint, name)
      modifies this`files, this`trace, this`faults, this`unflushed, this`unsynced
      ensures Valid() && old(trace) <= trace && unsynced == old(unsynced)
      ensures unflushed == if r.Done? then old(unflushed) + {name} else old(unflushed)
      ensures r.Done? || r.Occupied? || r.Failed?
      ensures faults == old(faults) + if r.Failed? then 1 else 0
      ensures r.Done? ==> Look(old(files), name) == None
      ensures r.Occupied? ==> name in files
      ensures var next := if r.Done? then old(files)[name := []] else old(files);
              Went(footprint, old(files), next, trace, |old(trace)|, files)
    {
      Others();
      var works: bool := *;
      if !works {
        r := Failed;
        Blame();
      } else if name in files {
        r := Occupied;
      } else {
        r := Done;
        Become(files[name := []], true);
        unflushed := unflushed + {name};
      }
    }

    /** What was written to an open file. */
    method Fill(name: string, bytes: Blob)
      requires Valid() && Within(footprint, name)
      modifies this`files, this`trace, this`unflushed
      ensures Valid() && old(trace) <= trace && unflushed == old(unflushed) + {name}
      ensures Went(footprint, old(files), old(files)[name := bytes], trace, |old(trace)|, files)
    {
      Others();
      Become(files[name := bytes], true);
      unflushed := unflushed + {name};
    }

    /** An atomic rename. When it reports a failure it may still have happened. */
    method MoveFile(from: string, to: string, replace: bool) returns (r: Access, ghost happened: bool)
      requires Valid() && from != to && Within(footprint, from) && Within(footprint, to)
      modifies this`files, this`trace, this`faults, this`unflushed, this`unsynced
      ensures Valid() && old(trace) <= trace && unsynced == (old(unsynced) || happened)
      ensures unflushed == if !happened then old(unflushed)
                           else old(unflushed) - {from, to} + if from in old(unflushed) then {to} else {}
      ensures faults == old(faults) + if r.Failed? then 1 else 0
      ensures r.Missing? ==> from !in files
      ensures r.Occupied? ==> from in files && to in files && !replace
      ensures r.Done? ==> happened
      ensures happened ==> (r.Done? || r.Failed?) && from in old(files) && (replace || to !in old(files))
      ensures Went(footprint, old(files), if happened then Renamed(old(files), from, to) else old(files),
                   trace, |old(trace)|, files)
    {
      Others();
      var works: bool := *;
      var happens: bool := *;
      happened := false;
      if from !in files {
        r := if works then Missing else Failed;
      } else if to in files && !replace {
        r := if works then Occupied else Failed;
      } else if works || happens {
        r := if works then Done else Failed;
        happened := true;
        Rename(from, to);
      } else {
        r := Failed;
      }
      if r.Failed? {
        Blame();
      }
    }

    method Rename(from: string, to: string)
      requires Valid() && from in files && from != to && Within(footprint, from) && Within(footprint, to)
      modifies this`files, this`trace, this`unflushed, this`unsynced
      ensures Valid() && files == Renamed(old(files), from, to) && trace == old(trace) + [Moment(files, true)]
      ensures unsynced && unflushed == old(unflushed) - {from, to} + if from in old(unflushed) then {to} else {}
    {
      Become(Renamed(files, from, to), true);
      unflushed := unflushed - {from, to} + if from in unflushed then {to} else {};
      unsynced := true;
    }

    method DeleteFile(name: string) returns (r: Access, ghost happened: bool)
      requires Valid() && Within(footprint, name)
      modifies this`files, this`trace, this`faults, this`unflushed, this`unsynced
      ensures Valid() && old(trace) <= trace && unsynced == old(unsynced) && unflushed == old(unflushed)
      ensures !r.Occupied? && faults == old(faults) + if r.Failed? then 1 else 0
      ensures r.Done? ==> happened
      ensures r.Missing? ==> !happened && Look(old(files), name) == None
      ensures Went(footprint, old(files), if happened then old(files) - {name} else old(files),
                   trace, |old(trace)|, files)
    {
      Others();
      var works: bool := *;
      var happens: bool := *;
      happened := false;
      if name !in files {
        r := if works then Missing else Failed;
      } else {
        r := if works then Done else Failed;
        if works || happens {
          happened := true;
          Become(files - {name}, true);
        }
      }
      if r.Failed? {
        Blame();
      }
    }

    /** Opening or looking at a file: it is missing, or the call fails. */
    method Reach(name: string) returns (r: Access)
      requires Valid() && Within(footprint, name)
      modifies this`files, this`trace, this`faults, this`unflushed, this`unsynced
      ensures Valid() && old(trace) <= trace && unsynced == old(unsynced) && unflushed == old(unflushed)
      ensures faults == old(faults) + if r.Failed? then 1 else 0
      ensures r.Done? ==> name in files
      ensures r.Missing? ==> name !in files
      ensures !r.Occupied?
      ensures Went(footprint, old(files), old(files), trace, |old(trace)|, files)
    {
      Others();
      var works: bool := *;
      r := if !works then Failed else if name in files then Done else Missing;
      if !works {
        Blame();
      }
    }

    /** Setting a file's time stamp to the present. */
    method Refresh(name: string) returns (r: Access)
      requires Valid() && Within(footprint, name)
      modifies this`files, this`trace, this`faults, this`unflushed, this`unsynced, this`refreshed
      ensures Valid() && old(trace) <= trace && unsynced == old(unsynced) && unflushed == old(unflushed)
      ensures faults == old(faults) + if r.Failed? then 1 else 0
      ensures r.Done? ==> name in files
      ensures r.Missing? ==> name !in files
      ensures !r.Occupied? && refreshed == if r.Done? then old(refreshed) + {name} else old(refreshed)
      ensures Went(footprint, old(files), old(files), trace, |old(trace)|, files)
    {
      r := Reach(name);
      if r.Done? {
        refreshed := refreshed + {name};
      }
    }

    /** A call that only looks at the directory itself. */
    method Attempt() returns (ok: bool)
      modifies this`faults
      ensures faults == old(faults) + if ok then 0 else 1
    {
      ok := *;
      if !ok {
        Blame();
      }
    }

    /** `FlushFileBuffers` on a file that was written. */
    method FlushFile(name: string) returns (ok: bool)
      modifies this`faults, this`unflushed
      ensures faults == old(faults) + if ok then 0 else 1
      ensures unflushed == if ok then old(unflushed) - {name} else old(unflushed)
    {
      ok := Attempt();
      if ok {
        unflushed := unflushed - {name};
      }
    }

    /** `sync_windows_directory`. */
    method SyncDirectory() returns (ok: bool)
      modifies this`faults, this`unsynced
      ensures faults == old(faults) + if ok then 0 else 1
      ensures unsynced == (old(unsynced) && !ok)
    {
      ok := Attempt();
      if ok {
        unsynced := false;
      }
    }

    method EnsureNamespaceAvailable() returns (r: Result<()>)
      modifies this`faults, this`available
      ensures r == Ok(()) || r == Err(Io(InspectNamespace))
      ensures faults == old(faults) + if r.Ok? then 0 else 1
      ensures available == old(available) + if r.Ok? then 1 else 0
    {
      var ok := Attempt();
      if ok {
        available := available + 1;
      }
      r := if ok then Ok(()) else Err(Io(InspectNamespace));
    }
  }

  /** The system's random bytes; once they run out, `getrandom` fails. */
  class Entropy {
    var supply: seq<seq<Byte>>

    ghost predicate Valid()
      reads this
    {
      forall i | 0 <= i < |supply| :: |supply[i]| == 32
    }

    method Take() returns (bytes: Option<seq<Byte>>)
      requires Valid()
      modifies this
      ensures Valid() && (bytes.Some? ==> |bytes.value| == 32)
      ensures |supply| == if bytes.Some? then |old(supply)| - 1 else |old(supply)|
      ensures bytes.None? <==> old(supply) == []
    {
      if supply == [] {
        return None;
      }
      bytes := Some(supply[0]);
      supply := supply[1..];
    }
  }
}
