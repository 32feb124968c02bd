/** The lazily grown worker pool of `src/engine/workers.rs`. */
module Workers {

  /** The pool holds the join handle of each thread it started. Threads are known by their index. */
  class WorkerPool {
    const capacity: nat
    const panicking: set<nat>    // threads that end by a panic; known once they are joined
    var open: bool               // the job sender has not been taken
    var handles: seq<nat>
    ghost var faults: nat        // how many calls of the pool have failed
    ghost var joined: nat        // how many threads there were when the pool came down

    ghost predicate Valid()
      reads this
    {
      |handles| <= capacity && forall i | 0 <= i < |handles| :: handles[i] == i
    }

    /** None of the threads that were joined had panicked. */
    ghost predicate AllWell()
      reads this
    {
      forall i | 0 <= i < joined :: i !in panicking
    }

    constructor (capacity: nat, panicking: set<nat>)
      ensures Valid() && this.capacity == capacity && this.panicking == panicking && open && handles == []
    {
      this.capacity, this.panicking := capacity, panicking;
      open := true;
      handles := [];
      faults, joined := 0, 0;
    }

    /** `prepare`: starts threads until there are `required`, but never more than the capacity; a thread
        that cannot be started stops this, and the threads started so far stay. */
    method Prepare(required: nat) returns (ok: bool)
      requires Valid()
      modifies this`handles, this`faults
      ensures Valid() && old(handles) <= handles && faults == old(faults) + if ok then 0 else 1
      ensures |handles| <= |old(handles)| || (|handles| <= required && |handles| <= capacity)
      ensures ok <==> required <= |handles| || capacity <= |handles|
    {
      while |handles| < required && |handles| < capacity
        invariant Valid() && old(handles) <= handles && faults == old(faults)
        invariant |handles| <= |old(handles)| || (|handles| <= required && |handles| <= capacity)
      {
        var index := |handles|;
        var started: bool := *;
        if !started {
          faults := faults + 1;
          return false;
        }
        handles := handles + [index];
      }
      return true;
    }

    /** `prepare_dispatch`: where a job may still be refused before it is handed over. */
    method PrepareDispatch() returns (ok: bool)
      modifies this`faults
      ensures faults == old(faults) + if ok then 0 else 1
    {
      ok := *;
      if !ok {
        faults := faults + 1;
      }
    }

    /** `execute`: hands a job over, exactly unless the pool was taken down; the pool itself keeps a receiver
        of jobs, so sending cannot fail. */
    method Execute() returns (ok: bool)
      modifies this`faults
      ensures ok <==> open
      ensures faults == old(faults) + if ok then 0 else 1
    {
      ok := open;
      if !ok {
        faults := faults + 1;
      }
    }

    /** `shutdown`: every thread is joined, even after one of them has panicked; the outcome is good
        exactly if none did. */
    method Shutdown() returns (ok: bool)
      requires Valid()
      modifies this`open, this`handles, this`joined
      ensures Valid() && !open && handles == [] && joined == |old(handles)|
      ensures ok <==> forall i | 0 <= i < |old(handles)| :: old(handles)[i] !in panicking
      ensures ok <==> AllWell()
    {
      open, joined := false, |handles|;
      var panicked := false;
      ghost var gone := 0;
      while handles != []
        invariant gone <= |old(handles)| && handles == old(handles)[gone..]
        invariant !panicked <==> forall i | 0 <= i < gone :: i !in panicking
        invariant !open && joined == |old(handles)|
        decreases |handles|
      {
        var index := handles[0];
        assert index == old(handles)[gone] == gone;
        var failed := Join(index);
        panicked := panicked || failed;
        gone := gone + 1;
        handles := handles[1..];
      }
      assert forall i | 0 <= i < joined :: old(handles)[i] == i;
      if i :| 0 <= i < joined && i in panicking {
        assert old(handles)[i] in panicking;
      }
      return !panicked;
    }

    /** Joining a thread tells whether it ended by a panic. */
    method Join(index: nat) returns (failed: bool)
      ensures failed <==> index in panicking
    {
      return index in panicking;
    }
  }
}
