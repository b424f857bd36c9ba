/**
 * UsageCounter: a named semaphore, created full at int.MaxValue, used to
 * count users across instances. Each Increment takes one unit and each
 * Decrement returns one, under a mutex; the first user fires beginUsage
 * and the last one out fires endUsage. The model is sequential: a wait on
 * an empty semaphore cannot be satisfied by anyone else, so it times out.
 */
module UsageCounters {
  import opened RpcTypes

  /** UsageCounter.MaxCount, int.MaxValue */
  const MaxCount: int := 0x7fff_ffff

  /** A Win32 semaphore with a count between 0 and its maximum. */
  class Semaphore {
    var count: int
    const maximum: int

    ghost predicate Valid()
      reads this
    {
      0 <= count <= maximum
    }

    constructor (initial: int, maximum: int)
      requires 0 <= initial <= maximum
      ensures Valid() && count == initial && this.maximum == maximum
    {
      count := initial;
      this.maximum := maximum;
    }

    /** WaitOne(Timeout): takes one unit if there is one; otherwise the wait times out. */
    method WaitOne() returns (signalled: bool)
      requires Valid()
      modifies this
      ensures Valid()
      ensures signalled <==> old(count) > 0
      ensures count == if signalled then old(count) - 1 else old(count)
    {
      signalled := count > 0;
      if signalled {
        count := count - 1;
      }
    }

    /** Release(): returns the previous count, or raises SemaphoreFullException at the maximum. */
    method Release() returns (r: Result<int>)
      requires Valid()
      modifies this
      ensures Valid()
      ensures old(count) == maximum ==> r == Failure(SemaphoreFullException) && count == old(count)
      ensures old(count) < maximum ==> r == Success(old(count)) && count == old(count) + 1
    {
      if count == maximum {
        return Failure(SemaphoreFullException);
      }
      r := Success(count);
      count := count + 1;
    }
  }

  /** A callback argument: null, or a delegate together with how it ends when called. */
  datatype Callback = NoCallback | Callback(outcome: Outcome)

  /** The effect of one Increment or Decrement: the new semaphore count, whether the callback ran, and how the call ended. */
  datatype Step = Step(count: int, fired: bool, outcome: Outcome)

  /** The number of users a semaphore count stands for. */
  function Users(count: int): int
  {
    MaxCount - count
  }

  /**
   * Increment(beginUsage, arg), on a semaphore holding count units.
   * Two units are taken and one given back, so a successful call takes
   * exactly one; the callback runs on the first user only.
   */
  function IncrementStep(count: int, lockAcquired: bool, beginUsage: Callback): (r: Step)
    requires 0 <= count <= MaxCount
    ensures r.fired <==> lockAcquired && beginUsage.Callback? && Users(count) == 0
    ensures r.count == if lockAcquired && count >= 2 then count - 1 else count
    ensures r.outcome.Ok? <==> lockAcquired && count >= 2 && (r.fired ==> beginUsage.outcome.Ok?)
    ensures r.outcome.Raised? && !r.fired ==> r.outcome.ex == TimeoutException && r.count == count
    ensures r.fired ==> r.outcome == beginUsage.outcome && Users(r.count) == 1
  {
    if !lockAcquired then Step(count, false, Raised(TimeoutException))
    else if count == 0 then Step(count, false, Raised(TimeoutException))
    else if count == 1 then Step(count, false, Raised(TimeoutException))
    else
      var counter := 1 + (count - 2);
      if beginUsage.Callback? && counter == MaxCount - 1 then Step(counter, true, beginUsage.outcome)
      else Step(counter, false, Ok)
  }

  /**
   * Decrement(endUsage), on a semaphore holding count units. One unit is
   * given back; the callback runs when the last user leaves. Giving back a
   * unit the semaphore cannot hold raises SemaphoreFullException.
   */
  function DecrementStep(count: int, lockAcquired: bool, endUsage: Callback): (r: Step)
    requires 0 <= count <= MaxCount
    ensures r.fired <==> lockAcquired && endUsage.Callback? && Users(count) == 1
    ensures r.count == if lockAcquired && count < MaxCount then count + 1 else count
    ensures r.outcome.Ok? <==> lockAcquired && count < MaxCount && (r.fired ==> endUsage.outcome.Ok?)
    ensures !lockAcquired ==> r.outcome == Raised(TimeoutException)
    ensures lockAcquired && count == MaxCount ==> r.outcome == Raised(SemaphoreFullException)
    ensures r.fired ==> r.outcome == endUsage.outcome && Users(r.count) == 0
  {
    if !lockAcquired then Step(count, false, Raised(TimeoutException))
    else if count == MaxCount then Step(count, false, Raised(SemaphoreFullException))
    else
      var counter := 1 + count;
      if endUsage.Callback? && counter == MaxCount then Step(counter, true, endUsage.outcome)
      else Step(counter, false, Ok)
  }

  class UsageCounter {
    /** _count */
    const sem: Semaphore
    /** Whether this thread holds _lock. */
    var lockHeld: bool

    ghost predicate Valid()
      reads this, sem
    {
      sem.Valid() && sem.maximum == MaxCount && !lockHeld
    }

    /** new UsageCounter(name): the semaphore starts full, so there are no users. */
    constructor ()
      ensures Valid() && fresh(sem)
      ensures sem.count == MaxCount && Users(sem.count) == 0
    {
      sem := new Semaphore(MaxCount, MaxCount);
      lockHeld := false;
    }

    /** Increment(beginUsage, arg). lockAcquired says whether _lock.WaitOne succeeded in time. */
    method Increment(lockAcquired: bool, beginUsage: Callback) returns (fired: bool, o: Outcome)
      requires Valid()
      modifies this, sem
      ensures Valid()
      ensures Step(sem.count, fired, o) == IncrementStep(old(sem.count), lockAcquired, beginUsage)
    {
      fired := false;
      if !lockAcquired {
        return false, Raised(TimeoutException);
      }
      lockHeld := true;
      var first := sem.WaitOne();
      if !first {
        o := Raised(TimeoutException);
      } else {
        var second := sem.WaitOne();
        if !second {
          var _ := sem.Release();
          o := Raised(TimeoutException);
        } else {
          var previous := sem.Release();
          var counter := 1 + previous.value;
          o := Ok;
          if beginUsage.Callback? && counter == MaxCount - 1 {
            fired := true;
            o := beginUsage.outcome;
          }
        }
      }
      lockHeld := false;
    }

    /** Decrement(endUsage). */
    method Decrement(lockAcquired: bool, endUsage: Callback) returns (fired: bool, o: Outcome)
      requires Valid()
      modifies this, sem
      ensures Valid()
      ensures Step(sem.count, fired, o) == DecrementStep(old(sem.count), lockAcquired, endUsage)
    {
      fired := false;
      if !lockAcquired {
        return false, Raised(TimeoutException);
      }
      lockHeld := true;
      var previous := sem.Release();
      if previous.Failure? {
        o := Raised(previous.ex);
      } else {
        var counter := 1 + previous.value;
        o := Ok;
        if endUsage.Callback? && counter == MaxCount {
          fired := true;
          o := endUsage.outcome;
        }
      }
      lockHeld := false;
    }
  }

  /** A sequence of calls, each with the lock acquired and no callback. */
  datatype Op = Inc | Dec

  /** The semaphore count after running ops. */
  function Run(count: int, ops: seq<Op>): int
    requires 0 <= count <= MaxCount
    decreases |ops|
  {
    if ops == [] then count
    else
      var next := if ops[0] == Inc then IncrementStep(count, true, NoCallback).count else DecrementStep(count, true, NoCallback).count;
      Run(next, ops[1..])
  }

  /** Increments minus decrements. */
  function Balance(ops: seq<Op>): int
  {
    if ops == [] then 0 else (if ops[0] == Inc then 1 else -1) + Balance(ops[1..])
  }

  /**
   * Every call in ops succeeds when started with users users: no
   * decrement without a user, and no increment once the semaphore holds
   * fewer than two units.
   */
  predicate Feasible(users: int, ops: seq<Op>)
    decreases |ops|
  {
    ops == [] || (
      if ops[0] == Inc then users <= MaxCount - 2 && Feasible(users + 1, ops[1..])
      else users >= 1 && Feasible(users - 1, ops[1..]))
  }

  /** After n successful increments and m decrements the count has dropped by n - m. */
  lemma {:induction false} RunCounts(count: int, ops: seq<Op>)
    requires 0 <= count <= MaxCount && Feasible(Users(count), ops)
    ensures Run(count, ops) == count - Balance(ops)
    decreases |ops|
  {
    if ops != [] {
      if ops[0] == Inc {
        RunCounts(count - 1, ops[1..]);
      } else {
        RunCounts(count + 1, ops[1..]);
      }
    }
  }

  /** From a fresh counter, the number of users is the balance of increments over decrements. */
  lemma FreshCounterUsers(ops: seq<Op>)
    requires Feasible(0, ops)
    ensures Users(Run(MaxCount, ops)) == Balance(ops)
  {
    RunCounts(MaxCount, ops);
  }
}
