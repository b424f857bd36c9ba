/**
 * The process-wide listener: every RpcServerApi instance's _isListening
 * flag, the shared UsageCounter's semaphore count, and whether
 * RpcServerListen is in effect. The counter is meant to hold one user per
 * listening instance, so that the process listens exactly while some
 * instance does.
 *
 * StartListening as written breaks this when ServerListen raises inside
 * the first Increment: the unit stays taken, the instance stays not
 * listening, and no later StartListening calls ServerListen again.
 * StartFixed gives the unit back in that case, and keeps the invariant.
 */
module ListenerSystem {
  import opened RpcTypes
  import opened UsageCounters
  import ServerApi

  /** The number of instances whose flag is set. */
  function CountListening(flags: seq<bool>): (n: nat)
    ensures n <= |flags|
  {
    if flags == [] then 0 else (if flags[0] then 1 else 0) + CountListening(flags[1..])
  }

  /** Setting one flag changes the count by exactly that flag. */
  lemma {:induction false} CountListeningUpdate(flags: seq<bool>, i: nat, b: bool)
    requires i < |flags|
    ensures CountListening(flags[i := b]) == CountListening(flags) - (if flags[i] then 1 else 0) + (if b then 1 else 0)
  {
    if i == 0 {
      assert flags[i := b][1..] == flags[1..];
    } else {
      assert flags[i := b][1..] == flags[1..][i - 1 := b];
      CountListeningUpdate(flags[1..], i - 1, b);
    }
  }

  /** No flag set: nobody listens. */
  lemma {:induction false} CountListeningNone(n: nat)
    ensures CountListening(seq(n, _ => false)) == 0
  {
    if n > 0 {
      assert seq(n, _ => false)[1..] == seq(n - 1, _ => false);
      CountListeningNone(n - 1);
    }
  }

  /** The semaphore count, each instance's _isListening, and whether RpcServerListen is in effect. */
  datatype Process = Process(count: int, listening: seq<bool>, serving: bool)

  /** One user per listening instance, and the process serves iff some instance listens. */
  predicate Consistent(p: Process)
  {
    0 <= p.count <= MaxCount && |p.listening| <= MaxCount - 2 &&
    Users(p.count) == CountListening(p.listening) &&
    (p.serving <==> Users(p.count) > 0)
  }

  /** A process with n server instances, none listening, and a fresh counter. */
  function FreshProcess(n: nat): (p: Process)
    requires n <= MaxCount - 2
    ensures Consistent(p) && |p.listening| == n
  {
    CountListeningNone(n);
    Process(MaxCount, seq(n, _ => false), false)
  }

  /**
   * StartListening on instance i as written (lock acquired, RpcServerListen
   * answering listenStatus): the Increment of UsageCounter, with the flag
   * set only when it returns.
   */
  function Start(p: Process, i: nat, listenStatus: RpcError): (q: Process)
    requires i < |p.listening| && 0 <= p.count <= MaxCount
    ensures |q.listening| == |p.listening| && 0 <= q.count <= MaxCount
    ensures p.listening[i] ==> q == p
    ensures !p.listening[i] ==> q.count == IncrementStep(p.count, true, Callback(ServerApi.ServerListen(listenStatus))).count
  {
    if p.listening[i] then p
    else
      var s := IncrementStep(p.count, true, Callback(ServerApi.ServerListen(listenStatus)));
      Process(s.count, if s.outcome.Ok? then p.listening[i := true] else p.listening, p.serving || (s.fired && s.outcome.Ok?))
  }

  /**
   * Start is what ServerApi.RpcServerApi.StartListening does to one
   * instance: run on a server whose counter and flag are those of p, the
   * method leaves the counter and flag of Start(p, i, listenStatus), and
   * the process serves afterwards iff it did or RpcServerListen succeeded.
   */
  method StartMatchesInstance(server: ServerApi.RpcServerApi, p: Process, i: nat, listenStatus: RpcError)
    returns (q: Process, listened: bool, o: Outcome)
    requires server.Valid() && i < |p.listening|
    requires p.count == server.listeners.sem.count && p.listening[i] == server.isListening
    modifies server, server.listeners, server.listeners.sem
    ensures q == Start(p, i, listenStatus)
    ensures q.count == server.listeners.sem.count && q.listening[i] == server.isListening
    ensures q.serving <==> p.serving || (listened && o.Ok?)
  {
    q := Start(p, i, listenStatus);
    var listenCall;
    listened, listenCall, o := server.StartListening(true, listenStatus);
  }

  /** StopListening on instance i: the flag is cleared, then the Decrement; the last user stops the process listening. */
  function Stop(p: Process, i: nat): (q: Process)
    requires i < |p.listening| && 0 <= p.count <= MaxCount
    ensures |q.listening| == |p.listening| && 0 <= q.count <= MaxCount
    ensures !q.listening[i]
    ensures !p.listening[i] ==> q == p
  {
    if !p.listening[i] then p
    else
      var s := DecrementStep(p.count, true, Callback(ServerApi.ServerStopListening(0, 0).1));
      Process(s.count, p.listening[i := false], p.serving && !s.fired)
  }

  /** Stopping a listening instance keeps one user per listening instance. */
  lemma StopPreservesConsistent(p: Process, i: nat)
    requires Consistent(p) && i < |p.listening|
    ensures Consistent(Stop(p, i))
  {
    if p.listening[i] {
      CountListeningUpdate(p.listening, i, false);
    }
  }

  /**
   * As written: with two instances, a refused first ServerListen leaves a
   * user counted for an instance that is not listening, and a second
   * instance then believes it listens while the process never called
   * RpcServerListen again.
   */
  lemma StartLeaksUser()
    ensures var p0 := FreshProcess(2);
            var p1 := Start(p0, 0, RPC_S_NO_PROTSEQS_REGISTERED);
            var p2 := Start(p1, 1, RPC_S_OK);
            Consistent(p0) && !Consistent(p1) && Users(p1.count) == 1 && !p1.listening[0] &&
            p2.listening[1] && !p2.serving
  {
    var p0 := FreshProcess(2);
    assert p0.listening == [false, false];
    var p1 := Start(p0, 0, RPC_S_NO_PROTSEQS_REGISTERED);
    assert p1.listening == [false, false];
    assert CountListening(p1.listening) == 0;
  }

  /**
   * The evidently intended Increment: when beginUsage raises, the unit
   * taken for the new user is given back, so a failed Increment never
   * changes the count.
   */
  function IncrementStepFixed(count: int, lockAcquired: bool, beginUsage: Callback): (r: Step)
    requires 0 <= count <= MaxCount
    ensures r.fired == IncrementStep(count, lockAcquired, beginUsage).fired
    ensures r.outcome == IncrementStep(count, lockAcquired, beginUsage).outcome
    ensures r.outcome.Raised? ==> r.count == count
    ensures r.outcome.Ok? ==> r.count == count - 1
  {
    var s := IncrementStep(count, lockAcquired, beginUsage);
    if s.fired && s.outcome.Raised? then Step(count, s.fired, s.outcome) else s
  }

  /** StartListening on top of IncrementStepFixed. */
  function StartFixed(p: Process, i: nat, listenStatus: RpcError): (q: Process)
    requires i < |p.listening| && 0 <= p.count <= MaxCount
    ensures |q.listening| == |p.listening| && 0 <= q.count <= MaxCount
    ensures p.listening[i] ==> q == p
  {
    if p.listening[i] then p
    else
      var s := IncrementStepFixed(p.count, true, Callback(ServerApi.ServerListen(listenStatus)));
      Process(s.count, if s.outcome.Ok? then p.listening[i := true] else p.listening, p.serving || (s.fired && s.outcome.Ok?))
  }

  /** With the fixed Increment, starting keeps one user per listening instance, whatever RpcServerListen answers. */
  lemma StartFixedPreservesConsistent(p: Process, i: nat, listenStatus: RpcError)
    requires Consistent(p) && i < |p.listening|
    ensures Consistent(StartFixed(p, i, listenStatus))
    ensures var q := StartFixed(p, i, listenStatus);
            q.listening[i] <==> p.listening[i] || listenStatus == RPC_S_OK || listenStatus == RPC_S_ALREADY_LISTENING || Users(p.count) > 0
  {
    if !p.listening[i] {
      CountListeningUpdate(p.listening, i, true);
    }
  }

  /** A process event: StartListening with RpcServerListen's answer, or StopListening, on one instance. */
  datatype Event = StartEvent(instance: nat, listenStatus: RpcError) | StopEvent(instance: nat)

  /** The process after events, with the fixed Increment; an event on an instance that does not exist is skipped. */
  function RunFixed(p: Process, events: seq<Event>): (q: Process)
    requires 0 <= p.count <= MaxCount
    ensures |q.listening| == |p.listening|
    decreases |events|
  {
    if events == [] then p
    else
      var e := events[0];
      var next := if e.instance >= |p.listening| then p
                  else if e.StartEvent? then StartFixed(p, e.instance, e.listenStatus)
                  else Stop(p, e.instance);
      RunFixed(next, events[1..])
  }

  /** Whatever the events and RpcServerListen's answers, the process listens exactly while some instance does. */
  lemma {:induction false} RunFixedConsistent(p: Process, events: seq<Event>)
    requires Consistent(p)
    ensures Consistent(RunFixed(p, events))
    ensures RunFixed(p, events).serving <==> CountListening(RunFixed(p, events).listening) > 0
    decreases |events|
  {
    if events != [] {
      var e := events[0];
      if e.instance < |p.listening| {
        if e.StartEvent? {
          StartFixedPreservesConsistent(p, e.instance, e.listenStatus);
          RunFixedConsistent(StartFixed(p, e.instance, e.listenStatus), events[1..]);
        } else {
          StopPreservesConsistent(p, e.instance);
          RunFixedConsistent(Stop(p, e.instance), events[1..]);
        }
      } else {
        RunFixedConsistent(p, events[1..]);
      }
    }
  }
}
