/**
 * RpcClientApi: a client connection. It authenticates once, then sends
 * byte arrays through NdrClientCall2 using a stub descriptor it creates
 * on first use and keeps on its binding handle.
 *
 * The runtime's answers are parameters: `answer` for
 * RpcBindingSetAuthInfo, and an NdrReply for NdrClientCall2.
 */
module ClientApi {
  import opened RpcTypes
  import opened Structs
  import opened Handles
  import RpcExceptions
  import RpcApiTables
  import StubDescriptors

  // ---------------------------------------------------------------- credentials

  /** RpcClientApi.Anonymous: a fresh credential of the Anonymous user, with no password. */
  function Anonymous(): (c: NetworkCredential)
    ensures c.userName == "ANONYMOUS LOGON" && c.domain == "NT_AUTHORITY" && c.password == ""
  {
    NetworkCredential("ANONYMOUS LOGON", "", "NT_AUTHORITY")
  }

  /** A credential argument; None is null, which RpcClientApi.Self returns. */
  type Credential = Option<NetworkCredential>

  /** The isAnon test: a credential with Anonymous's user name and domain, whatever its password. */
  predicate IsAnonymous(credentials: Credential)
  {
    credentials.Some? && credentials.value.userName == Anonymous().userName && credentials.value.domain == Anonymous().domain
  }

  /** Anonymous itself passes the test and null does not; neither does a credential of another user or domain. */
  lemma AnonymousTest(c: NetworkCredential)
    ensures IsAnonymous(Some(Anonymous())) && !IsAnonymous(None)
    ensures IsAnonymous(Some(c)) <==> c.userName == "ANONYMOUS LOGON" && c.domain == "NT_AUTHORITY"
  {
  }

  /** The protection level, authentication types and credentials AuthenticateAs(serverPrincipalName, credentials) passes on. */
  datatype AuthSettings = AuthSettings(level: uint32, authTypes: seq<uint32>, credentials: Credential)

  /**
   * Lines 101-110: PKT_PRIVACY with GSS_NEGOTIATE then WINNT, unless the
   * credential is Anonymous's, which becomes DEFAULT with NONE and no
   * credential.
   */
  function DefaultAuthSettings(credentials: Credential): (s: AuthSettings)
    ensures IsAnonymous(credentials) ==> s == AuthSettings(RPC_C_PROTECT_LEVEL_DEFAULT, [RPC_C_AUTHN_NONE], None)
    ensures !IsAnonymous(credentials) ==> s.credentials == credentials
    ensures s.level == RPC_C_PROTECT_LEVEL_PKT_PRIVACY <==> !IsAnonymous(credentials)
    ensures s.authTypes == [RPC_C_AUTHN_NONE] <==> IsAnonymous(credentials)
  {
    var types := [RPC_C_AUTHN_GSS_NEGOTIATE, RPC_C_AUTHN_WINNT];
    var protect := RPC_C_PROTECT_LEVEL_PKT_PRIVACY;
    if IsAnonymous(credentials) then AuthSettings(RPC_C_PROTECT_LEVEL_DEFAULT, [RPC_C_AUTHN_NONE], None)
    else AuthSettings(protect, types, credentials)
  }

  /**
   * Self (the null credential) is not rewritten: it keeps PKT_PRIVACY and
   * both authentication types, unlike what the doc comment at lines
   * 119-120 says.
   */
  lemma SelfIsNotRewritten()
    ensures DefaultAuthSettings(None) == AuthSettings(RPC_C_PROTECT_LEVEL_PKT_PRIVACY, [RPC_C_AUTHN_GSS_NEGOTIATE, RPC_C_AUTHN_WINNT], None)
  {
  }

  /** The rewrite looks at user name and domain only: any password of the Anonymous user is dropped. */
  lemma AnonymousPasswordIgnored(password: string)
    ensures DefaultAuthSettings(Some(NetworkCredential(Anonymous().userName, password, Anonymous().domain))) ==
            DefaultAuthSettings(Some(Anonymous()))
    ensures DefaultAuthSettings(Some(Anonymous())).credentials == None
  {
  }

  // ---------------------------------------------------------------- BindingSetAuthInfo

  /** One RpcBindingSetAuthInfo call: binding, server principal, level, service, identity (None is IntPtr.Zero) and AuthzSvc. */
  datatype SetAuthInfoCall = SetAuthInfoCall(
    binding: Address,
    serverPrincipalName: Option<string>,
    level: uint32,
    authnSvc: uint32,
    identity: Option<SecWinntAuthIdentity>,
    authzSvc: uint32)

  /** The runtime's answer to each RpcBindingSetAuthInfo call. */
  type AuthAnswer = SetAuthInfoCall -> RpcError

  /** The identity argument: none for a null credential, otherwise the SEC_WINNT_AUTH_IDENTITY built from it. */
  function IdentityArgument(credentials: Credential): (id: Option<SecWinntAuthIdentity>)
    ensures id.None? <==> credentials.None?
    ensures credentials.Some? ==> id.value.user == credentials.value.userName && id.value.domain == credentials.value.domain
    ensures credentials.Some? ==> id.value.password == credentials.value.password
  {
    if credentials.None? then None else Some(AuthIdentityOf(credentials.value))
  }

  /** The authentication types whose call the runtime refused, in call order. */
  function Rejected(calls: seq<SetAuthInfoCall>, answer: AuthAnswer): (r: seq<uint32>)
    ensures |r| <= |calls|
    ensures r == [] <==> forall i :: 0 <= i < |calls| ==> answer(calls[i]) == RPC_S_OK
  {
    if calls == [] then []
    else (if answer(calls[0]) != RPC_S_OK then [calls[0].authnSvc] else []) + Rejected(calls[1..], answer)
  }

  lemma {:induction false} RejectedAppend(calls: seq<SetAuthInfoCall>, c: SetAuthInfoCall, answer: AuthAnswer)
    ensures Rejected(calls + [c], answer) == Rejected(calls, answer) + (if answer(c) != RPC_S_OK then [c.authnSvc] else [])
  {
    if calls != [] {
      assert (calls + [c])[1..] == calls[1..] + [c];
      RejectedAppend(calls[1..], c, answer);
    } else {
      assert calls + [c] == [c];
    }
  }

  /**
   * BindingSetAuthInfo(level, authTypes, handle, serverPrincipalName, credentials):
   * one call per type, in order, all with the same identity; a refused
   * type is only logged, so the procedure never raises.
   */
  method BindingSetAuthInfo(level: uint32, authTypes: seq<uint32>, binding: Address, serverPrincipalName: Option<string>,
                            credentials: Credential, answer: AuthAnswer)
    returns (calls: seq<SetAuthInfoCall>, rejected: seq<uint32>)
    ensures |calls| == |authTypes|
    ensures forall i :: 0 <= i < |calls| ==>
      calls[i] == SetAuthInfoCall(binding, serverPrincipalName, level, authTypes[i], IdentityArgument(credentials), 0)
    ensures rejected == Rejected(calls, answer)
  {
    var identity := IdentityArgument(credentials);
    calls := [];
    rejected := [];
    for i := 0 to |authTypes|
      invariant |calls| == i
      invariant forall k :: 0 <= k < i ==> calls[k] == SetAuthInfoCall(binding, serverPrincipalName, level, authTypes[k], identity, 0)
      invariant rejected == Rejected(calls, answer)
    {
      var call := SetAuthInfoCall(binding, serverPrincipalName, level, authTypes[i], identity, 0);
      RejectedAppend(calls, call, answer);
      if answer(call) != RPC_S_OK {
        rejected := rejected + [authTypes[i]];
      }
      calls := calls + [call];
    }
  }

  // ---------------------------------------------------------------- NdrClientCall2

  /**
   * What NdrClientCall2 does: it returns a result with the response size
   * and pointer filled in (memory is what the pointer points at), or it
   * raises a structured exception with an error code.
   */
  datatype NdrReply =
    | Returned(result: int32, responseSize: int32, response: Address, memory: seq<uint8>)
    | Faulted(errorCode: int32)

  /** The runtime's promise: a non-null response of positive size points at that many bytes. */
  predicate ReplyFits(reply: NdrReply)
  {
    reply.Returned? && reply.responseSize > 0 && reply.response != 0 ==> |reply.memory| >= reply.responseSize
  }

  /** What InvokeRpc does with the reply: the output, or the exception, and the frees it issues. */
  datatype Response = Response(output: Result<seq<uint8>>, frees: seq<RpcApiTables.HeapCall>)

  /** A zero-filled array of n bytes. */
  function Zeros(n: nat): (z: seq<uint8>)
    ensures |z| == n && forall i :: 0 <= i < n ==> z[i] == 0
  {
    seq(n, _ => 0)
  }

  /**
   * Lines 291-295, 314-318 and 326-335: a structured exception becomes an
   * RpcException unless its code is 0; a non-zero result raises before
   * anything is copied or freed; a negative size makes the allocation
   * raise; otherwise exactly responseSize bytes come back, copied only
   * from a non-null pointer, and the response is freed.
   */
  function HandleReply(reply: NdrReply): (r: Response)
    requires ReplyFits(reply)
    ensures r.output.Success? <==> reply.Returned? && reply.result == 0 && reply.responseSize >= 0
    ensures reply.Faulted? && reply.errorCode != 0 ==> r.output == Failure(RpcException(reply.errorCode))
    ensures reply.Faulted? && reply.errorCode == 0 ==> r.output == Failure(SehException(0))
    ensures reply.Returned? && reply.result != 0 ==> r.output == Failure(RpcException(reply.result))
    ensures reply.Returned? && reply.result == 0 && reply.responseSize < 0 ==> r.output == Failure(OverflowException)
    ensures r.output.Failure? ==> r.frees == []
    ensures r.output.Success? ==> |r.output.value| == reply.responseSize && r.frees == RpcApiTables.Free(reply.response)
    ensures r.output.Success? && reply.responseSize > 0 && reply.response != 0 ==> r.output.value == reply.memory[..reply.responseSize]
    ensures r.output.Success? && reply.response == 0 ==> r.output.value == Zeros(reply.responseSize)
  {
    match reply
    case Faulted(code) =>
      var o := RpcExceptions.AssertRaw(code);
      Response(Failure(if o.Raised? then o.ex else SehException(code)), [])
    case Returned(result, size, response, memory) =>
      var o := RpcExceptions.AssertRaw(result);
      if o.Raised? then Response(Failure(o.ex), [])
      else if size < 0 then Response(Failure(OverflowException), [])
      else
        var output := if size > 0 && response != 0 then memory[..size] else Zeros(size);
        Response(Success(output), RpcApiTables.Free(response))
  }

  /** IntPtr.ToInt32() in a 32-bit process: the pointer's bits as a signed int. */
  function PointerToInt32(addr: Address): (v: int32)
    requires addr < 0x1_0000_0000
    ensures FromInt32(v) == addr
  {
    Wrap32(addr)
  }

  /** new IntPtr(int) in a 32-bit process: the int's bits as an address. */
  function FromInt32(v: int32): (addr: Address)
    ensures addr < 0x1_0000_0000 && Wrap32(addr) == v
  {
    if v >= 0 then v else v + 0x1_0000_0000
  }

  /** The address of slot k of the 10-int frame at base. */
  function SlotAddress(base: Address, k: nat): Address
  {
    base + 4 * k
  }

  /** Slot pointers survive the round trip through int: ToInt32() of the frame plus 4k, read back as a pointer, is slot k. */
  lemma FrameSlotPointer(base: Address, k: nat)
    requires k < 10 && base + 40 <= 0x1_0000_0000
    ensures FromInt32(Wrap32(PointerToInt32(base) as int + 4 * k)) == SlotAddress(base, k)
  {
    var b := PointerToInt32(base) as int;
    if base < 0x8000_0000 {
      assert b == base;
      if base + 4 * k < 0x8000_0000 {
        assert Wrap32(b + 4 * k) == base + 4 * k;
      } else {
        assert Wrap32(b + 4 * k) == base + 4 * k - 0x1_0000_0000;
      }
    } else {
      assert b == base - 0x1_0000_0000;
      assert Wrap32(b + 4 * k) == b + 4 * k;
      assert FromInt32(Wrap32(b + 4 * k)) == b + 4 * k + 0x1_0000_0000;
    }
  }

  /**
   * Lines 301-308: the frame before the call. Slot 0 is the binding,
   * slot 1 the input length, slot 2 the input buffer; slots 3 and 4 point
   * at slots 6 and 8, where the runtime writes the response size and
   * pointer; every other slot is 0.
   */
  function Frame32(binding: Address, inputLength: int32, input: Address, base: Address): (frame: seq<int32>)
    requires binding < 0x1_0000_0000 && input < 0x1_0000_0000 && base + 40 <= 0x1_0000_0000
    ensures |frame| == 10
    ensures FromInt32(frame[0]) == binding && frame[1] == inputLength && FromInt32(frame[2]) == input
    ensures FromInt32(frame[3]) == SlotAddress(base, 6) && FromInt32(frame[4]) == SlotAddress(base, 8)
    ensures forall k :: 5 <= k < 10 ==> frame[k] == 0
  {
    FrameSlotPointer(base, 6);
    FrameSlotPointer(base, 8);
    var b := PointerToInt32(base) as int;
    [PointerToInt32(binding), inputLength, PointerToInt32(input), Wrap32(b + 4 * 6), Wrap32(b + 4 * 8), 0, 0, 0, 0, 0]
  }

  /**
   * Lines 299-322: the 32-bit call. The frame is a fresh pinned Int32[10];
   * the runtime writes the response size and pointer through the
   * addresses in slots 3 and 4, and they are read back from slots 6 and 8.
   * frame is the stack NdrClientCall2x86 receives.
   */
  method CallX86(binding: Address, inputLength: int32, input: Address, base: Address, reply: NdrReply)
    returns (size: int32, response: Address, ghost frame: seq<int32>)
    requires binding < 0x1_0000_0000 && input < 0x1_0000_0000 && base + 40 <= 0x1_0000_0000
    requires reply.Returned? && reply.response < 0x1_0000_0000
    ensures frame == Frame32(binding, inputLength, input, base)
    ensures size == reply.responseSize && response == reply.response
  {
    var stack := new int32[10](_ => 0);
    var pStack := PointerToInt32(base) as int;
    stack[0] := PointerToInt32(binding);
    stack[1] := inputLength;
    stack[2] := PointerToInt32(input);
    stack[3] := Wrap32(pStack + 4 * 6);
    stack[4] := Wrap32(pStack + 4 * 8);
    stack[5] := 0;
    stack[6] := 0;
    stack[8] := 0;
    assert stack[..] == Frame32(binding, inputLength, input, base);
    frame := stack[..];
    // NdrClientCall2x86(pStub, FUNC_FORMAT_PTR, pStack32): the out parameters are written through slots 3 and 4.
    FrameSlotPointer(base, 6);
    FrameSlotPointer(base, 8);
    var sizeSlot := (FromInt32(stack[3]) - base) / 4;
    var responseSlot := (FromInt32(stack[4]) - base) / 4;
    assert sizeSlot == 6 && responseSlot == 8;
    stack[sizeSlot] := reply.responseSize;
    stack[responseSlot] := PointerToInt32(reply.response);
    size := stack[6];
    response := FromInt32(stack[8]);
  }

  /**
   * The arguments NdrClientCall2 was given: the stub descriptor, the
   * procedure format string, the binding, the input length and the pinned
   * input buffer (plain arguments on x64, frame slots 0-2 on x86).
   */
  datatype NdrCall = NdrCall(stubDesc: Address, formatString: Address, binding: Address, dataSize: int, data: Address)

  /** The pins InvokeRpc adds on first use: the client interface, the three stub-descriptor pins, then the stub descriptor. */
  ghost predicate StubCreated(added: seq<Slot>, iid: Guid, api: RpcApiTables.RpcApi)
  {
    |added| == 5 &&
    added[0].PtrSlot? && added[0].data == ClientInterface(NewRpcClientInterface(iid, api.pointerSize)) &&
    added[1].PtrSlot? && added[1].data == IntPtrValue(0) &&
    added[2].PtrSlot? && added[2].data == Bytes(api.typeFormat) &&
    added[3].PtrSlot? && added[3].data == CommFault(StubDescriptors.NoCommFaultOffsets) &&
    added[4].PtrSlot? && added[4].data == StubDesc(StubDescriptors.StubDescRecord(added[0].addr, api, added[1].addr, added[2].addr, added[3].addr))
  }

  /**
   * Lines 270-277: the stub descriptor already on the handle, or a new one
   * built for iid on the client side.
   */
  method GetOrCreateStub(h: RpcHandle, api: RpcApiTables.RpcApi, iid: Guid) returns (stub: Slot)
    requires h.Valid()
    modifies h
    ensures h.Valid() && h.handle == old(h.handle) && h.released == old(h.released)
    ensures FindFirst(old(h.pinned), PtrOf(StubDescType)).Some? ==>
      h.pinned == old(h.pinned) && stub == old(h.pinned)[FindFirst(old(h.pinned), PtrOf(StubDescType)).value]
    ensures FindFirst(old(h.pinned), PtrOf(StubDescType)).None? ==>
      |h.pinned| == |old(h.pinned)| + 5 && h.pinned[..|old(h.pinned)|] == old(h.pinned) &&
      StubCreated(h.pinned[|old(h.pinned)|..], iid, api) && stub == h.pinned[|old(h.pinned)| + 4]
    ensures IsA(stub, PtrOf(StubDescType)) && stub in h.pinned
    ensures FindFirst(h.pinned, PtrOf(StubDescType)).Some? && stub == h.pinned[FindFirst(h.pinned, PtrOf(StubDescType)).value]
  {
    var found, existing := h.GetPtr(PtrOf(StubDescType));
    if found {
      return existing.value;
    }
    ghost var before := h.pinned;
    var ciAddr := h.Pin(ClientInterface(NewRpcClientInterface(iid, api.pointerSize)));
    var desc := StubDescriptors.NewMidlStubDesc(h, api, ciAddr, api.typeFormat, false);
    stub := h.CreatePtr(StubDesc(desc));
    assert h.pinned[|before|..] == [PtrSlot(ciAddr, ClientInterface(NewRpcClientInterface(iid, api.pointerSize))),
      PtrSlot(desc.pAutoBindHandle, IntPtrValue(0)), PtrSlot(desc.pFormatTypes, Bytes(api.typeFormat)),
      PtrSlot(desc.commFaultOffsets, CommFault(StubDescriptors.NoCommFaultOffsets)), stub];
    assert h.pinned[|before| + 4] == stub;
    assert forall j :: 0 <= j < |before| + 4 ==> !IsA(h.pinned[j], PtrOf(StubDescType));
  }

  /** The 64-bit call passes everything as arguments; it needs none of the frame's addressing. */
  method InvokeRpc(h: RpcHandle, api: RpcApiTables.RpcApi, iid: Guid, input: seq<uint8>, inputAddr: Address, frameAddr: Address, reply: NdrReply)
    returns (r: Response, call: NdrCall, ghost frame: Option<seq<int32>>)
    requires h.Valid() && ReplyFits(reply) && |input| < 0x8000_0000
    requires !api.is64BitProcess ==> h.handle < 0x1_0000_0000 && inputAddr < 0x1_0000_0000 && frameAddr + 40 <= 0x1_0000_0000
    requires !api.is64BitProcess && reply.Returned? ==> reply.response < 0x1_0000_0000
    modifies h
    ensures h.Valid() && h.handle == old(h.handle) && h.released == old(h.released)
    ensures r == HandleReply(reply)
    ensures FindFirst(old(h.pinned), PtrOf(StubDescType)).Some? ==> h.pinned == old(h.pinned)
    ensures FindFirst(old(h.pinned), PtrOf(StubDescType)).None? ==>
      |h.pinned| == |old(h.pinned)| + 5 && h.pinned[..|old(h.pinned)|] == old(h.pinned) &&
      StubCreated(h.pinned[|old(h.pinned)|..], iid, api)
    ensures exists s :: s in h.pinned && IsA(s, PtrOf(StubDescType)) && call == NdrCall(s.addr, api.funcFormatPtr.addr, h.handle, |input|, inputAddr)
    ensures FindFirst(h.pinned, PtrOf(StubDescType)).Some?
    ensures call == NdrCall(h.pinned[FindFirst(h.pinned, PtrOf(StubDescType)).value].addr, api.funcFormatPtr.addr, h.handle, |input|, inputAddr)
    ensures frame.Some? <==> !api.is64BitProcess && reply.Returned?
    ensures frame.Some? ==> frame.value == Frame32(call.binding, call.dataSize, call.data, frameAddr)
  {
    var stub := GetOrCreateStub(h, api, iid);
    call := NdrCall(stub.addr, api.funcFormatPtr.addr, h.handle, |input|, inputAddr);
    var result := reply;
    frame := None;
    if !api.is64BitProcess && reply.Returned? {
      var size, response, stack := CallX86(h.handle, |input|, inputAddr, frameAddr, reply);
      frame := Some(stack);
      result := Returned(reply.result, size, response, reply.memory);
    }
    r := HandleReply(result);
  }

  // ---------------------------------------------------------------- the client

  class RpcClientApi {
    /** IID */
    const iid: Guid
    /** _handle, an RpcClientHandle */
    const handle: RpcHandle
    /** The RpcApi statics of the process. */
    const api: RpcApiTables.RpcApi
    /** _authenticated */
    var authenticated: bool
    /** Every RpcBindingSetAuthInfo call made on the binding, in order. */
    var authCalls: seq<SetAuthInfoCall>

    ghost predicate Valid()
      reads this, handle
    {
      handle.Valid() && handle.kind == ClientHandle
    }

    /** A connected client; binding is the handle RpcBindingFromStringBinding returned. */
    constructor (iid: Guid, api: RpcApiTables.RpcApi, binding: Address)
      ensures Valid() && fresh(handle)
      ensures this.iid == iid && this.api == api && handle.handle == binding && handle.pinned == [] && handle.released == []
      ensures !authenticated && authCalls == []
    {
      this.iid := iid;
      this.api := api;
      var h := new RpcHandle(ClientHandle);
      h.handle := binding;
      handle := h;
      authenticated := false;
      authCalls := [];
    }

    /** AuthenticateAs(serverPrincipalName, credentials, level, authTypes): only the first call reaches the runtime. */
    method AuthenticateAs(serverPrincipalName: Option<string>, credentials: Credential, level: uint32, authTypes: seq<uint32>, answer: AuthAnswer)
      modifies this
      ensures authenticated
      ensures old(authenticated) ==> authCalls == old(authCalls)
      ensures !old(authenticated) ==>
        |authCalls| == |old(authCalls)| + |authTypes| && authCalls[..|old(authCalls)|] == old(authCalls) &&
        forall i :: 0 <= i < |authTypes| ==>
          authCalls[|old(authCalls)| + i] == SetAuthInfoCall(handle.handle, serverPrincipalName, level, authTypes[i], IdentityArgument(credentials), 0)
    {
      if !authenticated {
        var calls, _ := BindingSetAuthInfo(level, authTypes, handle.handle, serverPrincipalName, credentials, answer);
        authCalls := authCalls + calls;
        authenticated := true;
      }
    }

    /** AuthenticateAs(serverPrincipalName, credentials), with the defaults of DefaultAuthSettings. */
    method AuthenticateAsPrincipal(serverPrincipalName: Option<string>, credentials: Credential, answer: AuthAnswer)
      modifies this
      ensures authenticated
      ensures old(authenticated) ==> authCalls == old(authCalls)
      ensures !old(authenticated) ==>
        var s := DefaultAuthSettings(credentials);
        |authCalls| == |old(authCalls)| + |s.authTypes| && authCalls[..|old(authCalls)|] == old(authCalls) &&
        forall i :: 0 <= i < |s.authTypes| ==>
          authCalls[|old(authCalls)| + i] == SetAuthInfoCall(handle.handle, serverPrincipalName, s.level, s.authTypes[i], IdentityArgument(s.credentials), 0)
    {
      var s := DefaultAuthSettings(credentials);
      AuthenticateAs(serverPrincipalName, s.credentials, s.level, s.authTypes, answer);
    }

    /** AuthenticateAs(credentials): no server principal name. */
    method AuthenticateAsCredentials(credentials: Credential, answer: AuthAnswer)
      modifies this
      ensures authenticated
      ensures old(authenticated) ==> authCalls == old(authCalls)
      ensures !old(authenticated) ==>
        var s := DefaultAuthSettings(credentials);
        |authCalls| == |old(authCalls)| + |s.authTypes| && authCalls[..|old(authCalls)|] == old(authCalls) &&
        forall i :: 0 <= i < |s.authTypes| ==>
          authCalls[|old(authCalls)| + i] == SetAuthInfoCall(handle.handle, None, s.level, s.authTypes[i], IdentityArgument(s.credentials), 0)
    {
      AuthenticateAsPrincipal(None, credentials, answer);
    }

    /**
     * Execute(input): an unauthenticated client first authenticates as
     * Anonymous, which is one RpcBindingSetAuthInfo call with NONE.
     */
    method Execute(input: seq<uint8>, answer: AuthAnswer, inputAddr: Address, frameAddr: Address, reply: NdrReply)
      returns (r: Response)
      requires Valid() && ReplyFits(reply) && |input| < 0x8000_0000
      requires !api.is64BitProcess ==> handle.handle < 0x1_0000_0000 && inputAddr < 0x1_0000_0000 && frameAddr + 40 <= 0x1_0000_0000
      requires !api.is64BitProcess && reply.Returned? ==> reply.response < 0x1_0000_0000
      modifies this, handle
      ensures Valid() && authenticated
      ensures old(authenticated) ==> authCalls == old(authCalls)
      ensures !old(authenticated) ==>
        authCalls == old(authCalls) + [SetAuthInfoCall(handle.handle, None, RPC_C_PROTECT_LEVEL_DEFAULT, RPC_C_AUTHN_NONE, None, 0)]
      ensures r == HandleReply(reply)
      ensures handle.handle == old(handle.handle) && FindFirst(handle.pinned, PtrOf(StubDescType)).Some?
      ensures FindFirst(old(handle.pinned), PtrOf(StubDescType)).Some? ==> handle.pinned == old(handle.pinned)
      ensures FindFirst(old(handle.pinned), PtrOf(StubDescType)).None? ==> |handle.pinned| == |old(handle.pinned)| + 5
    {
      if !authenticated {
        AuthenticateAsCredentials(Some(Anonymous()), answer);
        assert IsAnonymous(Some(Anonymous()));
        ghost var settings := DefaultAuthSettings(Some(Anonymous()));
        assert settings.authTypes[0] == RPC_C_AUTHN_NONE && |settings.authTypes| == 1 && IdentityArgument(settings.credentials) == None;
        assert authCalls[|old(authCalls)|] == SetAuthInfoCall(handle.handle, None, RPC_C_PROTECT_LEVEL_DEFAULT, RPC_C_AUTHN_NONE, None, 0);
        assert authCalls == old(authCalls) + [authCalls[|old(authCalls)|]];
      }
      var call;
      ghost var frame;
      r, call, frame := InvokeRpc(handle, api, iid, input, inputAddr, frameAddr, reply);
    }

    /** Dispose(): releases the binding (RpcBindingFree answers status) and the pinned blocks. */
    method Dispose(status: RpcError) returns (o: Outcome)
      requires Valid()
      modifies handle
      ensures Valid() && handle.handle == 0
      ensures o.Raised? <==> old(handle.handle) != 0 && status != RPC_S_OK
      ensures o.Raised? ==>
        o.ex == RpcExceptions.NewRpcException(status) && handle.pinned == old(handle.pinned) &&
        handle.released == old(handle.released) + HandleRelease(old(handle.handle))
      ensures o.Ok? ==>
        handle.pinned == [] && handle.released == old(handle.released) + HandleRelease(old(handle.handle)) + ReleaseOrder(old(handle.pinned))
    {
      o := handle.Dispose(status);
    }
  }

  /** A second Execute reuses the stub descriptor of the first: no new pins. */
  method ExecuteTwice(c: RpcClientApi, input: seq<uint8>, answer: AuthAnswer, inputAddr: Address, frameAddr: Address, reply: NdrReply)
    returns (r1: Response, r2: Response)
    requires c.Valid() && ReplyFits(reply) && |input| < 0x8000_0000
    requires !c.api.is64BitProcess ==> c.handle.handle < 0x1_0000_0000 && inputAddr < 0x1_0000_0000 && frameAddr + 40 <= 0x1_0000_0000
    requires !c.api.is64BitProcess && reply.Returned? ==> reply.response < 0x1_0000_0000
    modifies c, c.handle
    ensures r1 == r2
    ensures |c.handle.pinned| <= |old(c.handle.pinned)| + 5
  {
    r1 := c.Execute(input, answer, inputAddr, frameAddr, reply);
    ghost var afterFirst := c.handle.pinned;
    assert FindFirst(afterFirst, PtrOf(StubDescType)).Some?;
    r2 := c.Execute(input, answer, inputAddr, frameAddr, reply);
  }
}
