/** Same-key first-in first-out as a conservation law, and who may be under way at the same time. */
module Conservation {
  import opened Invariant
  import opened Operations
  import opened Protocol
  import opened Runs
  import opened StepsPlaces
  import opened StepsTokens

  /** Those of `ids` that are operations on `key`, in their order. */
  ghost function Only(log: seq<Entry>, ids: seq<Id>, key: KeyHash): seq<Id> {
    if ids == [] then []
    else Only(log, ids[..|ids| - 1], key) + (if OfKey(log, ids[|ids| - 1], key) then [ids[|ids| - 1]] else [])
  }

  /** The operations on `key` among the first `count` requests that were not turned away, as sent. */
  ghost function Accepted(log: seq<Entry>, key: KeyHash, count: nat): seq<Id>
    requires count <= |log|
  {
    if count == 0 then []
    else Accepted(log, key, count - 1)
         + (if OfKey(log, count - 1, key) && !Late(log[count - 1]) then [count - 1] else [])
  }

  function QueueOf(s: State, key: KeyHash): seq<Id> {
    if key in s.queues then s.queues[key] else []
  }

  lemma {:induction false} OnlyKeeps(log: seq<Entry>, ids: seq<Id>, key: KeyHash)
    ensures forall id :: id in Only(log, ids, key) <==> id in ids && OfKey(log, id, key)
  {
    if ids == [] {
    } else {
      OnlyKeeps(log, ids[..|ids| - 1], key);
      assert ids == ids[..|ids| - 1] + [ids[|ids| - 1]];
    }
  }

  lemma {:induction false} OnlyIncreases(log: seq<Entry>, ids: seq<Id>, key: KeyHash)
    requires forall p, q | 0 <= p < q < |ids| && OfKey(log, ids[p], key) && OfKey(log, ids[q], key) :: ids[p] < ids[q]
    ensures Increasing(Only(log, ids, key))
  {
    if ids == [] {
    } else {
      var rest := ids[..|ids| - 1];
      OnlyIncreases(log, rest, key);
      OnlyKeeps(log, rest, key);
      assert forall p | 0 <= p < |Only(log, rest, key)| :: Only(log, rest, key)[p] in Only(log, rest, key);
    }
  }

  lemma {:induction false} AcceptedIncreases(log: seq<Entry>, key: KeyHash, count: nat)
    requires count <= |log|
    ensures Increasing(Accepted(log, key, count))
    ensures forall id: Id :: id in Accepted(log, key, count) <==> id < count && OfKey(log, id, key) && !Late(log[id])
  {
    if count == 0 {
    } else {
      AcceptedIncreases(log, key, count - 1);
      var rest := Accepted(log, key, count - 1);
      assert forall p | 0 <= p < |rest| :: rest[p] in rest;
    }
  }

  lemma IncreasingJoin(a: seq<Id>, b: seq<Id>)
    requires Increasing(a) && Increasing(b)
    requires forall x, y | x in a && y in b :: x < y
    ensures Increasing(a + b)
  {
    assert forall p | 0 <= p < |a| :: a[p] in a;
    assert forall p | 0 <= p < |b| :: b[p] in b;
  }

  /** Two increasing sequences of the same numbers are the same. */
  lemma {:induction false} IncreasingIsDetermined(a: seq<Id>, b: seq<Id>)
    requires Increasing(a) && Increasing(b)
    requires forall x :: x in a <==> x in b
    ensures a == b
  {
    assert a != [] ==> a[0] in a;
    assert b != [] ==> b[0] in b;
    if a == [] {
    } else {
      assert b[0] in a && a[0] in b;
      TailOfIncreasing(a);
      TailOfIncreasing(b);
      assert a[0] == b[0];
      IncreasingIsDetermined(a[1..], b[1..]);
      assert a == [a[0]] + a[1..] && b == [b[0]] + b[1..];
    }
  }

  /** The first parts, in order: what has left the queue, and the queue. */
  lemma LeftThenQueued(s: State, key: KeyHash)
    requires QueueInv(s) && FifoInv(s) && TakenInv(s)
    ensures var left := Only(s.world.log, s.taken, key);
            && Increasing(left + QueueOf(s, key))
            && (forall id | id in left :: OfKey(s.world.log, id, key) && Taken(s.world.log[id]))
  {
    var log, left, queue := s.world.log, Only(s.world.log, s.taken, key), QueueOf(s, key);
    OnlyKeeps(log, s.taken, key);
    OnlyIncreases(log, s.taken, key);
    assert key in s.queues ==> QueueOk(log, key, queue);
    forall x, y | x in left && y in queue ensures x < y {
      assert Taken(log[x]) && log[y].status.Queued?;
      assert SameKey(log[y], log[x]) && y < x ==> Finished(log[y]);
    }
    IncreasingJoin(left, queue);
  }

  /** The last parts, in order: what is held back, and what waits in the channel. */
  lemma HeldBackThenWaiting(s: State, key: KeyHash)
    requires InboxInv(s) && PendingInv(s)
    ensures var log := s.world.log;
            && Increasing(Only(log, s.pending, key) + Only(log, Inbox(s), key))
            && (forall id | id in Only(log, s.pending, key) :: OfKey(log, id, key) && log[id].status.Deferred?)
            && (forall id | id in Only(log, Inbox(s), key) :: OfKey(log, id, key) && log[id].status.Waiting?)
  {
    var log := s.world.log;
    OnlyKeeps(log, s.pending, key);
    OnlyKeeps(log, Inbox(s), key);
    OnlyIncreases(log, s.pending, key);
    OnlyIncreases(log, Inbox(s), key);
    IncreasingJoin(Only(log, s.pending, key), Only(log, Inbox(s), key));
  }

  /** Every operation that was not turned away is in one of the four places. */
  lemma EachHasItsPlace(s: State, key: KeyHash, id: Id)
    requires InboxInv(s) && PendingInv(s) && QueueInv(s) && TakenInv(s)
    requires OfKey(s.world.log, id, key) && !Late(s.world.log[id])
    ensures id in Only(s.world.log, s.taken, key) || id in QueueOf(s, key)
            || id in Only(s.world.log, s.pending, key) || id in Only(s.world.log, Inbox(s), key)
  {
    var log := s.world.log;
    OnlyKeeps(log, s.taken, key);
    OnlyKeeps(log, s.pending, key);
    OnlyKeeps(log, Inbox(s), key);
    QueuedIsInQueue(s, id);
    assert log[id].status.Waiting? ==> Inbox(s)[id - Turned(s)] == id;
  }

  lemma FurtherIsEarlier(s: State, key: KeyHash, x: Id, y: Id)
    requires OrderInv(s) && OfKey(s.world.log, x, key) && OfKey(s.world.log, y, key)
    requires Taken(s.world.log[x]) || s.world.log[x].status.Queued?
    requires s.world.log[y].status.Deferred? || s.world.log[y].status.Waiting?
    ensures x < y
  {
    assert Rank(s.world.log[x]) == 2 && Rank(s.world.log[y]) < 2;
  }

  lemma PartsAreOrdered(s: State, key: KeyHash)
    requires InboxInv(s) && PendingInv(s) && QueueInv(s) && OrderInv(s) && FifoInv(s) && TakenInv(s)
    ensures Increasing((Only(s.world.log, s.taken, key) + QueueOf(s, key))
                       + (Only(s.world.log, s.pending, key) + Only(s.world.log, Inbox(s), key)))
  {
    var log := s.world.log;
    var first := Only(log, s.taken, key) + QueueOf(s, key);
    var last := Only(log, s.pending, key) + Only(log, Inbox(s), key);
    LeftThenQueued(s, key);
    HeldBackThenWaiting(s, key);
    assert key in s.queues ==> QueueOk(log, key, QueueOf(s, key));
    forall x, y | x in first && y in last ensures x < y {
      FurtherIsEarlier(s, key, x, y);
    }
    IncreasingJoin(first, last);
  }

  lemma PartsAreComplete(s: State, key: KeyHash)
    requires InboxInv(s) && PendingInv(s) && QueueInv(s) && TakenInv(s)
    ensures forall id: Id :: OfKey(s.world.log, id, key) && !Late(s.world.log[id]) <==>
              || id in Only(s.world.log, s.taken, key) || id in QueueOf(s, key)
              || id in Only(s.world.log, s.pending, key) || id in Only(s.world.log, Inbox(s), key)
  {
    var log := s.world.log;
    OnlyKeeps(log, s.taken, key);
    OnlyKeeps(log, s.pending, key);
    OnlyKeeps(log, Inbox(s), key);
    assert key in s.queues ==> QueueOk(log, key, QueueOf(s, key));
    forall id: Id | OfKey(log, id, key) && !Late(log[id])
      ensures id in Only(log, s.taken, key) || id in QueueOf(s, key)
              || id in Only(log, s.pending, key) || id in Only(log, Inbox(s), key)
    {
      EachHasItsPlace(s, key, id);
    }
  }

  lemma PartsAreAccepted(s: State, key: KeyHash)
    requires InboxInv(s) && PendingInv(s) && QueueInv(s) && OrderInv(s) && FifoInv(s) && TakenInv(s)
    ensures (Only(s.world.log, s.taken, key) + QueueOf(s, key))
            + (Only(s.world.log, s.pending, key) + Only(s.world.log, Inbox(s), key))
            == Accepted(s.world.log, key, |s.world.log|)
  {
    PartsAreOrdered(s, key);
    PartsAreComplete(s, key);
    AcceptedIncreases(s.world.log, key, |s.world.log|);
    var parts := (Only(s.world.log, s.taken, key) + QueueOf(s, key))
                 + (Only(s.world.log, s.pending, key) + Only(s.world.log, Inbox(s), key));
    IncreasingIsDetermined(parts, Accepted(s.world.log, key, |s.world.log|));
  }

  /** First-in first-out as conservation. In every reachable state and for every key, what has left the
      queue, then the queue, then what is held back, then what waits in the channel is exactly the
      sequence of operations sent for that key, without those turned away. */
  lemma EachKeyInOrder(setup: Setup, s: State, key: KeyHash)
    requires Reachable(setup, s)
    ensures (Only(s.world.log, s.taken, key) + QueueOf(s, key))
            + (Only(s.world.log, s.pending, key) + Only(s.world.log, Inbox(s), key))
            == Accepted(s.world.log, key, |s.world.log|)
  {
    ReachableInv(setup, s);
    PartsAreAccepted(s, key);
  }

  // ---------------------------------------------------------------- who is under way

  /** The keys that jobs work for. */
  ghost function KeysServed(jobs: seq<Job>): set<KeyHash> {
    set j | 0 <= j < |jobs| && jobs[j].OperationJob? :: jobs[j].key
  }

  ghost predicate KeysApart(jobs: seq<Job>) {
    forall a, b | 0 <= a < b < |jobs| && jobs[a].OperationJob? && jobs[b].OperationJob? :: jobs[a].key != jobs[b].key
  }

  lemma {:induction false} JobsAddUp(jobs: seq<Job>)
    requires KeysApart(jobs)
    ensures |KeysServed(jobs)| + MaintenanceJobs(jobs) == |jobs|
  {
    if jobs == [] {
    } else {
      var rest, last := jobs[..|jobs| - 1], jobs[|jobs| - 1];
      JobsAddUp(rest);
      if last.OperationJob? {
        assert KeysServed(jobs) == KeysServed(rest) + {last.key};
      } else {
        assert KeysServed(jobs) == KeysServed(rest);
      }
    }
  }

  lemma SubsetSize<T>(a: set<T>, b: set<T>)
    requires a <= b
    ensures |a| <= |b|
  {
    assert b == a + (b - a);
  }

  lemma ServedAreActive(s: State)
    requires TokenInv(s)
    ensures KeysServed(s.world.jobs) <= s.active
  {
    forall j | 0 <= j < |s.world.jobs| && s.world.jobs[j].OperationJob? ensures s.world.jobs[j].key in s.active {
      JobIsCounted(s.world.jobs, j);
      TokenMeansActive(s, s.world.jobs[j].key);
    }
  }

  lemma WorkersSuffice(setup: Setup, s: State)
    requires TokenInv(s) && RunningInv(s) && PoolInv(setup, s) && MaintenanceInv(s)
    ensures KeysApart(s.world.jobs) && |s.world.jobs| <= s.workers
  {
    var jobs := s.world.jobs;
    forall a, b | 0 <= a < b < |jobs| && jobs[a].OperationJob? && jobs[b].OperationJob?
      ensures jobs[a].key != jobs[b].key
    {
      JobsAreApart(s, a, b);
    }
    JobsAddUp(jobs);
    ServedAreActive(s);
    SubsetSize(KeysServed(jobs), s.active);
  }

  /** In every reachable state each active key has exactly one job or completion under way, no other key
      has any, and two jobs never share a key. Active keys never exceed the bound, and the pool has a
      worker for every job and never more workers than its capacity. */
  lemma OneTokenEach(setup: Setup, s: State)
    requires Reachable(setup, s)
    ensures forall key :: Tokens(s.world, key) == if key in s.active then 1 else 0
    ensures KeysApart(s.world.jobs)
    ensures |s.active| <= setup.maximum
    ensures |s.world.jobs| <= s.workers <= setup.maximum
  {
    ReachableInv(setup, s);
    WorkersSuffice(setup, s);
  }
}
