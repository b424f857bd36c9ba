/**
 * RpcServerApi: a server for one interface id. It registers the interface
 * on construction, adds protocols and authentication services to the
 * process, counts listening instances on a process-wide UsageCounter (the
 * first one starts RpcServerListen, the last one stops it), and
 * dispatches each inbound call to its single handler.
 *
 * Native status codes are parameters.
 */
module ServerApi {
  import opened RpcTypes
  import opened Handles
  import RpcExceptions
  import RpcApiTables
  import ServerInfo
  import opened UsageCounters

  /** RpcServerApi.MAX_CALL_LIMIT */
  const MAX_CALL_LIMIT: int32 := 255
  /** RpcServerApi.DEF_REQ_LIMIT */
  const DEF_REQ_LIMIT: int32 := -1
  /** RPC_IF_ALLOW_CALLBACKS_WITH_NO_AUTH */
  const RPC_IF_ALLOW_CALLBACKS_WITH_NO_AUTH: int32 := 0x0010
  /** The request size RegisterIf2 is given when none is set: 80 KiB. */
  const DEFAULT_MAX_RPC_SIZE: int32 := 80 * 1024

  // ---------------------------------------------------------------- status mapping

  /**
   * ServerUseProtseqEp: true on OK, false on a duplicate endpoint, and an
   * RpcException for every other status.
   */
  function ServerUseProtseqEp(status: RpcError): (r: Result<bool>)
    ensures r == Success(true) <==> status == RPC_S_OK
    ensures r == Success(false) <==> status == RPC_S_DUPLICATE_ENDPOINT
    ensures r.Failure? ==> r.ex == RpcExceptions.NewRpcException(status) && RpcExceptions.RpcErrorOf(r.ex) == status
  {
    var asserted := if status != RPC_S_DUPLICATE_ENDPOINT then RpcExceptions.Assert(status) else Ok;
    if asserted.Raised? then Failure(asserted.ex) else Success(status == RPC_S_OK)
  }

  /** ServerRegisterAuthInfo: a refused registration is logged and reported as false. */
  function ServerRegisterAuthInfo(status: RpcError): (registered: bool)
    ensures registered <==> RpcExceptions.Assert(status).Ok?
  {
    status == RPC_S_OK
  }

  /** The arguments of RpcServerListen: MinimumCallThreads, MaxCalls, DontWait. */
  datatype ListenCall = ListenCall(minimumCallThreads: uint32, maxCalls: int32, dontWait: uint32)

  function ListenArguments(maxCalls: int32): (c: ListenCall)
    ensures c.minimumCallThreads == 1 && c.dontWait == 1 && c.maxCalls == maxCalls
  {
    ListenCall(1, maxCalls, 1)
  }

  /** ServerListen: a process that is already listening counts as success. */
  function ServerListen(status: RpcError): (o: Outcome)
    ensures o.Ok? <==> status == RPC_S_OK || status == RPC_S_ALREADY_LISTENING
    ensures o.Raised? ==> o == RpcExceptions.Assert(status)
  {
    var result := if status == RPC_S_ALREADY_LISTENING then RPC_S_OK else status;
    RpcExceptions.Assert(result)
  }

  /** The native calls ServerStopListening makes, in order. */
  datatype StopCall = StopServerListening(ignore: Address) | WaitServerListen

  /**
   * ServerStopListening: both calls are always made, their statuses only
   * logged; it returns normally whatever they answer.
   */
  function ServerStopListening(stopStatus: RpcError, waitStatus: RpcError): (r: (seq<StopCall>, Outcome))
    ensures r.0 == [StopServerListening(0), WaitServerListen]
    ensures r.1 == Ok
  {
    ([StopServerListening(0), WaitServerListen], Ok)
  }

  // ---------------------------------------------------------------- registration

  /** The registration call ServerRegisterInterface makes. */
  datatype Registration =
    | RegisterIf(ifSpec: Address)
    | RegisterIf2(ifSpec: Address, flags: int32, maxCalls: int32, maxRpcSize: int32, ifCallback: Address)

  /**
   * Lines 264-280: plain RegisterIf only for an authenticated interface
   * with the default request limit; otherwise RegisterIf2, with 255 calls
   * for a non-positive call limit, 80 KiB for a non-positive size, and
   * the no-auth flag with the accept-all callback only when anonymous
   * TCP is allowed.
   */
  function RegistrationCall(ifSpec: Address, maxCalls: int32, maxRequestBytes: int32, allowAnonTcp: bool, authCallback: Address): (r: Registration)
    ensures r.ifSpec == ifSpec
    ensures r.RegisterIf? <==> !allowAnonTcp && maxRequestBytes < 0
    ensures r.RegisterIf2? ==> r.maxCalls == (if maxCalls <= 0 then MAX_CALL_LIMIT else maxCalls)
    ensures r.RegisterIf2? ==> r.maxRpcSize == (if maxRequestBytes <= 0 then DEFAULT_MAX_RPC_SIZE else maxRequestBytes)
    ensures r.RegisterIf2? ==> (r.flags == RPC_IF_ALLOW_CALLBACKS_WITH_NO_AUTH <==> allowAnonTcp)
    ensures r.RegisterIf2? ==> (r.flags == 0 <==> !allowAnonTcp)
    ensures r.RegisterIf2? ==> r.ifCallback == (if allowAnonTcp then authCallback else 0)
  {
    var flags: int32 := if allowAnonTcp then RPC_IF_ALLOW_CALLBACKS_WITH_NO_AUTH else 0;
    var fnAuth: Address := if allowAnonTcp then authCallback else 0;
    if !allowAnonTcp && maxRequestBytes < 0 then RegisterIf(ifSpec)
    else
      RegisterIf2(ifSpec, flags, if maxCalls <= 0 then MAX_CALL_LIMIT else maxCalls,
                  if maxRequestBytes <= 0 then DEFAULT_MAX_RPC_SIZE else maxRequestBytes, fnAuth)
  }

  /** Whatever limits are asked for, RegisterIf2 is never given a non-positive one. */
  lemma RegistrationLimitsPositive(ifSpec: Address, maxCalls: int32, maxRequestBytes: int32, allowAnonTcp: bool, authCallback: Address)
    ensures var r := RegistrationCall(ifSpec, maxCalls, maxRequestBytes, allowAnonTcp, authCallback);
            r.RegisterIf2? ==> r.maxCalls > 0 && r.maxRpcSize > 0
  {
  }

  /**
   * The default constructor (MAX_CALL_LIMIT, DEF_REQ_LIMIT, no anonymous
   * TCP) uses plain RegisterIf; asking for anonymous TCP always goes
   * through RegisterIf2 with the callback, and a request limit of 0 is
   * not the default: it gets 80 KiB through RegisterIf2.
   */
  lemma RegistrationChoice(ifSpec: Address, maxCalls: int32, maxRequestBytes: int32, authCallback: Address)
    ensures RegistrationCall(ifSpec, MAX_CALL_LIMIT, DEF_REQ_LIMIT, false, authCallback) == RegisterIf(ifSpec)
    ensures RegistrationCall(ifSpec, maxCalls, maxRequestBytes, true, authCallback).RegisterIf2?
    ensures RegistrationCall(ifSpec, maxCalls, maxRequestBytes, true, authCallback).ifCallback == authCallback
    ensures RegistrationCall(ifSpec, maxCalls, 0, false, authCallback).RegisterIf2?
    ensures RegistrationCall(ifSpec, maxCalls, 0, false, authCallback).maxRpcSize == DEFAULT_MAX_RPC_SIZE
  {
  }

  /**
   * ServerRegisterInterface(handle, iid, fnExec, maxCalls, maxRequestBytes,
   * allowAnonTcp): builds the server interface on the handle, registers
   * it (the runtime answers status), and stores it as the handle only
   * when registration succeeded.
   */
  method ServerRegisterInterface(h: RpcHandle, api: RpcApiTables.RpcApi, iid: Guid, fnExec: nat, maxCalls: int32, maxRequestBytes: int32,
                                 allowAnonTcp: bool, authCallback: Address, status: RpcError)
    returns (call: Registration, o: Outcome)
    requires h.Valid()
    modifies h
    ensures h.Valid() && h.released == old(h.released)
    ensures |h.pinned| == |old(h.pinned)| + 8 && h.pinned[..|old(h.pinned)|] == old(h.pinned)
    ensures ServerInfo.CreatedBlocks(h.pinned[|old(h.pinned)|..], api, iid, api.typeFormat, api.funcFormat, fnExec)
    ensures call == RegistrationCall(h.pinned[|old(h.pinned)| + 1].addr, maxCalls, maxRequestBytes, allowAnonTcp, authCallback)
    ensures o == RpcExceptions.Assert(status)
    ensures h.handle == if o.Ok? then h.pinned[|old(h.pinned)| + 1].addr else old(h.handle)
  {
    var sIf := ServerInfo.Create(h, api, iid, api.typeFormat, api.funcFormat, fnExec);
    call := RegistrationCall(sIf.addr, maxCalls, maxRequestBytes, allowAnonTcp, authCallback);
    o := RpcExceptions.Assert(status);
    if o.Ok? {
      h.handle := sIf.addr;
    }
  }

  // ---------------------------------------------------------------- dispatch

  /** A subscribed RpcExecuteHandler, identified by its delegate's target and method. */
  datatype Handler = Handler(target: nat, methodInfo: nat)

  /** What a handler does with a request: return bytes, return null, or throw. */
  datatype HandlerReply = Returns(bytes: seq<uint8>) | ReturnsNull | Throws(id: nat)

  /** What a handler does, as a function of the request bytes. */
  type Behaviour = seq<uint8> -> HandlerReply

  /** Execute(client, input): calls the subscribed handler, or returns null when there is none. */
  function Execute(handler: Option<Handler>, behaviour: Behaviour, input: seq<uint8>): (r: HandlerReply)
    ensures handler.None? ==> r == ReturnsNull
    ensures handler.Some? ==> r == behaviour(input)
  {
    if handler.Some? then behaviour(input) else ReturnsNull
  }

  /** The out parameters and status RpcEntryPoint hands back, and the heap calls it makes. */
  datatype EntryResult = EntryResult(status: RpcError, szOutput: uint32, output: Address, outputBytes: seq<uint8>, heap: seq<RpcApiTables.HeapCall>)

  /**
   * RpcEntryPoint: null from Execute is NOT_LISTENING; bytes are copied
   * into a fresh LocalAlloc block; anything thrown (including the copy into
   * a null block) is E_FAIL with nothing handed back. block is the
   * address LocalAlloc returns.
   */
  function EntryPoint(handler: Option<Handler>, behaviour: Behaviour, input: seq<uint8>, block: Address): (r: EntryResult)
    requires var reply := Execute(handler, behaviour, input); reply.Returns? ==> |reply.bytes| < 0x8000_0000
    ensures r.status == RPC_S_OK <==> Execute(handler, behaviour, input).Returns? && block != 0
    ensures r.status == RPC_S_NOT_LISTENING <==> Execute(handler, behaviour, input).ReturnsNull?
    ensures r.status == RPC_S_OK || r.status == RPC_S_NOT_LISTENING || r.status == RPC_E_FAIL
    ensures r.status == RPC_S_OK ==>
      r.outputBytes == Execute(handler, behaviour, input).bytes && r.szOutput == |r.outputBytes| && r.output == block
    ensures r.status != RPC_S_OK ==> r.szOutput == 0 && r.output == 0 && r.outputBytes == []
    ensures handler.None? ==> r.status == RPC_S_NOT_LISTENING
    ensures r.heap != [] ==> Execute(handler, behaviour, input).Returns?
  {
    match Execute(handler, behaviour, input)
    case ReturnsNull => EntryResult(RPC_S_NOT_LISTENING, 0, 0, [], [])
    case Throws(_) => EntryResult(RPC_E_FAIL, 0, 0, [], RpcApiTables.Free(0))
    case Returns(bytesOut) =>
      var szOutput := |bytesOut|;
      var alloc := RpcApiTables.AllocCall(szOutput);
      if block == 0 then
        // Marshal.Copy into IntPtr.Zero raises; the catch frees the zero pointer, which is nothing.
        EntryResult(RPC_E_FAIL, 0, 0, [], [alloc] + RpcApiTables.Free(block))
      else
        EntryResult(RPC_S_OK, szOutput, block, bytesOut, [alloc])
  }

  /** Every successful dispatch allocates exactly once and frees nothing; nothing else allocates. */
  lemma EntryPointHeap(handler: Option<Handler>, behaviour: Behaviour, input: seq<uint8>, block: Address)
    requires var reply := Execute(handler, behaviour, input); reply.Returns? ==> |reply.bytes| < 0x8000_0000
    ensures var r := EntryPoint(handler, behaviour, input, block);
            r.status == RPC_S_OK ==> r.heap == [RpcApiTables.AllocCall(r.szOutput)]
    ensures var r := EntryPoint(handler, behaviour, input, block);
            r.status == RPC_S_NOT_LISTENING ==> r.heap == []
  {
  }

  /** OnExecute's add: a second subscription is refused; a null one leaves the slot as it was. */
  function Subscribe(slot: Option<Handler>, value: Option<Handler>): (r: Result<Option<Handler>>)
    ensures r.Failure? <==> slot.Some?
    ensures r.Failure? ==> r.ex == InvalidOperationException
    ensures r.Success? ==> r.value == value
  {
    if slot.Some? then Failure(InvalidOperationException) else Success(value)
  }

  /**
   * OnExecute's remove: a null value is refused; a value that is not the
   * subscribed delegate is refused; otherwise the slot is cleared.
   */
  function Unsubscribe(slot: Option<Handler>, value: Option<Handler>): (r: Result<Option<Handler>>)
    ensures value.None? ==> r == Failure(ArgumentNullException)
    ensures value.Some? && slot.Some? && slot != value ==> r == Failure(InvalidOperationException)
    ensures r.Success? <==> value.Some? && (slot.None? || slot == value)
    ensures r.Success? ==> r.value.None?
  {
    if value.None? then Failure(ArgumentNullException)
    else if slot.Some? && !(slot.value.target == value.value.target && slot.value.methodInfo == value.value.methodInfo) then Failure(InvalidOperationException)
    else Success(None)
  }

  /** Adding then removing the same handler leaves an empty slot; only the subscriber can remove itself. */
  lemma SubscribeUnsubscribe(h: Handler, other: Handler)
    ensures Subscribe(None, Some(h)) == Success(Some(h))
    ensures Unsubscribe(Some(h), Some(h)) == Success(None)
    ensures other != h ==> Unsubscribe(Some(h), Some(other)).Failure?
    ensures Subscribe(Some(h), Some(other)).Failure?
  {
  }

  // ---------------------------------------------------------------- the server

  class RpcServerApi {
    /** IID */
    const iid: Guid
    /** _handle, an RpcServerHandle */
    const handle: RpcHandle
    /** _listenerCount, shared by every instance in the process. */
    const listeners: UsageCounter
    /** _isListening */
    var isListening: bool
    /** _maxCalls */
    var maxCalls: int32
    /** _handler */
    var handler: Option<Handler>

    ghost predicate Valid()
      reads this, handle, listeners, listeners.sem
    {
      handle.Valid() && handle.kind == ServerHandle && listeners.Valid()
    }

    /** The field initialisation of lines 64-66. */
    constructor (iid: Guid, maxCalls: int32, listeners: UsageCounter)
      requires listeners.Valid()
      ensures Valid() && fresh(handle)
      ensures this.iid == iid && this.maxCalls == maxCalls && this.listeners == listeners
      ensures handle.handle == 0 && handle.pinned == [] && handle.released == []
      ensures !isListening && handler.None?
    {
      this.iid := iid;
      this.maxCalls := maxCalls;
      this.listeners := listeners;
      handle := new RpcHandle(ServerHandle);
      isListening := false;
      handler := None;
    }

    /** Lines 68-71: registration is skipped for Guid.Empty, which leaves a server usable only for AddProtocol and AddAuthentication. */
    method Register(api: RpcApiTables.RpcApi, fnExec: nat, maxRequestBytes: int32, allowAnonTcp: bool, authCallback: Address, status: RpcError)
      returns (call: Option<Registration>, o: Outcome)
      requires Valid()
      modifies handle
      ensures Valid() && handle.released == old(handle.released)
      ensures call.Some? <==> iid != EmptyGuid
      ensures iid == EmptyGuid ==> o == Ok && handle.pinned == old(handle.pinned) && handle.handle == old(handle.handle)
      ensures iid != EmptyGuid ==>
        o == RpcExceptions.Assert(status) && |handle.pinned| == |old(handle.pinned)| + 8 &&
        call.value == RegistrationCall(handle.pinned[|old(handle.pinned)| + 1].addr, maxCalls, maxRequestBytes, allowAnonTcp, authCallback)
      ensures iid != EmptyGuid ==>
        handle.pinned[..|old(handle.pinned)|] == old(handle.pinned) &&
        ServerInfo.CreatedBlocks(handle.pinned[|old(handle.pinned)|..], api, iid, api.typeFormat, api.funcFormat, fnExec)
      ensures iid != EmptyGuid && o.Ok? ==> handle.handle == handle.pinned[|old(handle.pinned)| + 1].addr
      ensures iid != EmptyGuid && o.Raised? ==> handle.handle == old(handle.handle)
    {
      if iid != EmptyGuid {
        var c;
        c, o := ServerRegisterInterface(handle, api, iid, fnExec, maxCalls, maxRequestBytes, allowAnonTcp, authCallback, status);
        call := Some(c);
      } else {
        call := None;
        o := Ok;
      }
    }

    /** AddProtocol(protocol, endpoint, maxCalls): the call limit only grows, even when the endpoint is refused. */
    method AddProtocol(maxCalls: int32, status: RpcError) returns (r: Result<bool>)
      modifies this
      ensures this.maxCalls == if old(this.maxCalls) >= maxCalls then old(this.maxCalls) else maxCalls
      ensures this.maxCalls >= old(this.maxCalls) && this.maxCalls >= maxCalls
      ensures r == ServerUseProtseqEp(status)
      ensures isListening == old(isListening) && handler == old(handler)
    {
      this.maxCalls := if this.maxCalls >= maxCalls then this.maxCalls else maxCalls;
      r := ServerUseProtseqEp(status);
    }

    /**
     * StartListening(): a no-op while listening; otherwise one Increment
     * of the shared counter, whose first user calls ServerListen with the
     * current call limit. The flag is set only if Increment returns.
     * listenCall is the RpcServerListen call made, if any: it carries the
     * call limit the instance holds at that moment.
     */
    method StartListening(lockAcquired: bool, listenStatus: RpcError) returns (listened: bool, listenCall: Option<ListenCall>, o: Outcome)
      requires Valid()
      modifies this, listeners, listeners.sem
      ensures Valid()
      ensures old(isListening) ==> o == Ok && !listened && listeners.sem.count == old(listeners.sem.count) && isListening
      ensures !old(isListening) ==>
        Step(listeners.sem.count, listened, o) == IncrementStep(old(listeners.sem.count), lockAcquired, Callback(ServerListen(listenStatus)))
      ensures listenCall == if listened then Some(ListenArguments(old(maxCalls))) else None
      ensures isListening <==> old(isListening) || o.Ok?
      ensures maxCalls == old(maxCalls) && handler == old(handler)
    {
      listened := false;
      listenCall := None;
      o := Ok;
      if isListening {
        return;
      }
      listened, o := listeners.Increment(lockAcquired, Callback(ServerListen(listenStatus)));
      if listened {
        listenCall := Some(ListenArguments(maxCalls));
      }
      if o.Ok? {
        isListening := true;
      }
    }

    /**
     * StopListening(): a no-op unless listening; the flag is cleared
     * before the Decrement, whose last user calls ServerStopListening.
     */
    method StopListening(lockAcquired: bool) returns (stopped: bool, o: Outcome)
      requires Valid()
      modifies this, listeners, listeners.sem
      ensures Valid()
      ensures !old(isListening) ==> o == Ok && !stopped && listeners.sem.count == old(listeners.sem.count)
      ensures old(isListening) ==>
        Step(listeners.sem.count, stopped, o) == DecrementStep(old(listeners.sem.count), lockAcquired, Callback(ServerStopListening(0, 0).1))
      ensures !isListening
      ensures maxCalls == old(maxCalls) && handler == old(handler)
    {
      stopped := false;
      o := Ok;
      if !isListening {
        return;
      }
      isListening := false;
      stopped, o := listeners.Decrement(lockAcquired, Callback(ServerStopListening(0, 0).1));
    }

    /** OnExecute add. */
    method AddOnExecute(value: Option<Handler>) returns (o: Outcome)
      modifies this
      ensures Subscribe(old(handler), value).Success? ==> o == Ok && handler == Subscribe(old(handler), value).value
      ensures Subscribe(old(handler), value).Failure? ==> o == Raised(InvalidOperationException) && handler == old(handler)
      ensures isListening == old(isListening) && maxCalls == old(maxCalls)
    {
      if handler.Some? {
        return Raised(InvalidOperationException);
      }
      handler := value;
      o := Ok;
    }

    /** OnExecute remove. */
    method RemoveOnExecute(value: Option<Handler>) returns (o: Outcome)
      modifies this
      ensures Unsubscribe(old(handler), value).Success? ==> o == Ok && handler.None?
      ensures Unsubscribe(old(handler), value).Failure? ==> o == Raised(Unsubscribe(old(handler), value).ex) && handler == old(handler)
      ensures isListening == old(isListening) && maxCalls == old(maxCalls)
    {
      if value.None? {
        return Raised(ArgumentNullException);
      }
      if handler.Some? && !(handler.value.target == value.value.target && handler.value.methodInfo == value.value.methodInfo) {
        return Raised(InvalidOperationException);
      }
      handler := None;
      o := Ok;
    }

    /**
     * Dispose(): drops the handler, stops listening, then disposes the
     * handle (RpcServerUnregisterIf, whose status is ignored). A failing
     * StopListening leaves the handle as it was.
     */
    method Dispose(lockAcquired: bool, unregisterStatus: RpcError) returns (o: Outcome)
      requires Valid()
      modifies this, listeners, listeners.sem, handle
      ensures Valid() && handler.None? && !isListening
      ensures old(isListening) ==>
        listeners.sem.count == DecrementStep(old(listeners.sem.count), lockAcquired, Callback(Ok)).count
      ensures !old(isListening) ==> listeners.sem.count == old(listeners.sem.count)
      ensures o.Raised? ==> handle.pinned == old(handle.pinned) && handle.handle == old(handle.handle) && handle.released == old(handle.released)
      ensures o.Ok? ==>
        handle.handle == 0 && handle.pinned == [] &&
        handle.released == old(handle.released) + HandleRelease(old(handle.handle)) + ReleaseOrder(old(handle.pinned))
      ensures o.Raised? <==> old(isListening) && DecrementStep(old(listeners.sem.count), lockAcquired, Callback(Ok)).outcome.Raised?
    {
      handler := None;
      var _, stop := StopListening(lockAcquired);
      if stop.Raised? {
        return stop;
      }
      o := handle.Dispose(unregisterStatus);
    }
  }

  /** new RpcServerApi(iid, maxCalls, maxRequestBytes, allowAnonTcp). */
  method NewRpcServerApi(iid: Guid, maxCalls: int32, maxRequestBytes: int32, allowAnonTcp: bool, listeners: UsageCounter,
                         api: RpcApiTables.RpcApi, fnExec: nat, authCallback: Address, status: RpcError)
    returns (server: RpcServerApi, call: Option<Registration>, o: Outcome)
    requires listeners.Valid()
    ensures server.Valid() && server.iid == iid && server.listeners == listeners
    ensures !server.isListening && server.handler.None? && server.maxCalls == maxCalls
    ensures call.Some? <==> iid != EmptyGuid
    ensures iid == EmptyGuid ==> o == Ok && server.handle.pinned == [] && server.handle.handle == 0
    ensures iid != EmptyGuid ==>
      o == RpcExceptions.Assert(status) && |server.handle.pinned| == 8 &&
      call.value == RegistrationCall(server.handle.pinned[1].addr, maxCalls, maxRequestBytes, allowAnonTcp, authCallback)
    ensures iid != EmptyGuid ==> ServerInfo.CreatedBlocks(server.handle.pinned, api, iid, api.typeFormat, api.funcFormat, fnExec)
    ensures server.handle.handle == if iid != EmptyGuid && o.Ok? then server.handle.pinned[1].addr else 0
  {
    server := new RpcServerApi(iid, maxCalls, listeners);
    call, o := server.Register(api, fnExec, maxRequestBytes, allowAnonTcp, authCallback, status);
  }
}
