/**
 * RpcClientInfo: what the server knows about the caller of one RPC call.
 * Call attributes are fetched lazily from the runtime with a fixed series
 * of RpcServerInqCallAttributes queries and cached once the first one
 * succeeds; impersonation is a flag that a scope object turns back off.
 *
 * The runtime is a parameter `rt`: given the request record it answers a
 * status and the attribute record it filled in. It fills output fields
 * only, so the request's Version and Flags survive the call.
 */
module ClientInfo {
  import opened RpcTypes
  import opened Structs
  import RpcExceptions

  /** One answer of RpcServerInqCallAttributes. */
  datatype Inquiry = Inquiry(status: RpcError, filled: CallAttributes)

  /** The runtime side of RpcServerInqCallAttributes for this call's binding. */
  type Runtime = CallAttributes -> Inquiry

  /** The Flags of each query GetCallInfo issues (a bitwise or of distinct bits is their sum). */
  const QUERY_NEGOTIATE: int := RPC_QUERY_NO_AUTH_REQUIRED
  const QUERY_LOCALITY: int := RPC_QUERY_IS_CLIENT_LOCAL + RPC_QUERY_NO_AUTH_REQUIRED
  const QUERY_PID: int := RPC_QUERY_CLIENT_PID
  const QUERY_ADDRESS: int := RPC_QUERY_CALL_LOCAL_ADDRESS + RPC_QUERY_NO_AUTH_REQUIRED
  const QUERY_PRINCIPAL: int := RPC_QUERY_CLIENT_PRINCIPAL_NAME

  /** The status and attribute record after one or more queries, and the requests that were sent. */
  datatype Phase = Phase(status: RpcError, attrs: CallAttributes, queries: seq<CallAttributes>)

  /** attrs.Flags = flags, then one query with attrs passed by reference. */
  function Ask(rt: Runtime, attrs: CallAttributes, flags: int): (p: Phase)
    ensures p.queries == [attrs.(flags := flags)]
    ensures p.status == rt(attrs.(flags := flags)).status
    ensures p.attrs.version == attrs.version && p.attrs.flags == flags
  {
    var request := attrs.(flags := flags);
    var reply := rt(request);
    Phase(reply.status, reply.filled.(version := request.version, flags := request.flags), [request])
  }

  /**
   * The first query, as version 2; a runtime that answers
   * RPC_S_INVALID_ARG gets exactly one more try, as version 1.
   */
  function Negotiate(rt: Runtime): (p: Phase)
    ensures 1 <= |p.queries| <= 2
    ensures p.queries[0] == EmptyCallAttributes.(version := 2, flags := QUERY_NEGOTIATE)
    ensures |p.queries| == 2 <==> rt(p.queries[0]).status == RPC_S_INVALID_ARG
    ensures |p.queries| == 2 ==> p.queries[1].version == 1 && p.queries[1].flags == QUERY_NEGOTIATE
    ensures p.attrs.version == if |p.queries| == 2 then 1 else 2
    ensures p.status == rt(p.queries[|p.queries| - 1]).status
  {
    var first := Ask(rt, EmptyCallAttributes.(version := 2), QUERY_NEGOTIATE);
    if first.status == RPC_S_INVALID_ARG then
      var second := Ask(rt, first.attrs.(version := 1), QUERY_NEGOTIATE);
      Phase(second.status, second.attrs, first.queries + second.queries)
    else
      first
  }

  /** Whether a query with these flags was sent. */
  predicate Queried(queries: seq<CallAttributes>, flags: int)
  {
    exists q :: q in queries && q.flags == flags
  }

  lemma QueriedAppend(a: seq<CallAttributes>, b: seq<CallAttributes>, flags: int)
    ensures Queried(a + b, flags) <==> Queried(a, flags) || Queried(b, flags)
  {
    if Queried(a + b, flags) {
      var q :| q in a + b && q.flags == flags;
      assert q in a || q in b;
    }
    if Queried(a, flags) {
      var q :| q in a && q.flags == flags;
      assert q in a + b;
    }
    if Queried(b, flags) {
      var q :| q in b && q.flags == flags;
      assert q in a + b;
    }
  }

  /** Every query in queries is sent as the given version. */
  predicate SameVersion(queries: seq<CallAttributes>, version: uint32)
  {
    forall k :: 0 <= k < |queries| ==> queries[k].version == version
  }

  lemma SameVersionAppend(a: seq<CallAttributes>, b: seq<CallAttributes>, version: uint32)
    requires SameVersion(a, version) && SameVersion(b, version)
    ensures SameVersion(a + b, version)
  {
  }

  /** The record the server keeps, the record last passed to the runtime, and the queries sent. */
  datatype Lookup = Lookup(stored: CallAttributes, attrs: CallAttributes, queries: seq<CallAttributes>)

  /**
   * Lines 170-181: the locality query, and for LRPC only, once that
   * succeeded, the PID query; each copies one field into the kept record.
   */
  function Locality(rt: Runtime, negotiated: CallAttributes): (l: Lookup)
    ensures l.stored == negotiated.(isClientLocal := l.stored.isClientLocal, clientPid := l.stored.clientPid)
    ensures l.attrs.version == negotiated.version
    ensures 1 <= |l.queries| <= 2 && l.queries[0] == negotiated.(flags := QUERY_LOCALITY)
    ensures |l.queries| == 2 <==> rt(l.queries[0]).status == RPC_S_OK && negotiated.protocolSequence == PROTOSEQ_LRPC
    ensures |l.queries| == 2 ==> l.queries[1].flags == QUERY_PID
    ensures forall q :: q in l.queries ==> q.version == negotiated.version && (q.flags == QUERY_LOCALITY || q.flags == QUERY_PID)
    ensures SameVersion(l.queries, negotiated.version)
  {
    var loc := Ask(rt, negotiated, QUERY_LOCALITY);
    if loc.status != RPC_S_OK then
      Lookup(negotiated, loc.attrs, loc.queries)
    else
      var kept := negotiated.(isClientLocal := loc.attrs.isClientLocal);
      if kept.protocolSequence != PROTOSEQ_LRPC then
        Lookup(kept, loc.attrs, loc.queries)
      else
        var pid := Ask(rt, loc.attrs, QUERY_PID);
        Lookup(if pid.status == RPC_S_OK then kept.(clientPid := pid.attrs.clientPid) else kept, pid.attrs, loc.queries + pid.queries)
  }

  /** What the principal query leaves: the kept record, the name, the authenticated flag, the request. */
  datatype Principal = Principal(stored: CallAttributes, name: Option<string>, authenticated: bool, query: CallAttributes)

  /**
   * Lines 211-228: a principal name is recorded when the query succeeds;
   * a non-empty one marks the caller authenticated and, on a version-1
   * runtime, local.
   */
  function PrincipalQuery(rt: Runtime, stored: CallAttributes, attrs: CallAttributes): (p: Principal)
    ensures p.query == attrs.(flags := QUERY_PRINCIPAL)
    ensures p.name.Some? <==> rt(p.query).status == RPC_S_OK
    ensures p.authenticated <==> p.name.Some? && p.name.value != ""
    ensures p.stored == if p.authenticated && attrs.version == 1 then stored.(isClientLocal := LOCALITY_LOCAL) else stored
  {
    var pr := Ask(rt, attrs, QUERY_PRINCIPAL);
    var name := if pr.status == RPC_S_OK then Some(pr.attrs.clientPrincipalName) else None;
    var authenticated := name.Some? && name.value != "";
    Principal(if authenticated && pr.attrs.version == 1 then stored.(isClientLocal := LOCALITY_LOCAL) else stored,
              name, authenticated, pr.queries[0])
  }

  /** The fields GetCallInfo fills in when nothing is cached, and the queries it sends. */
  datatype Fetched = Fetched(
    callAttrs: CallAttributes,
    clientAddress: Option<seq<uint8>>,
    clientPrincipalName: Option<string>,
    isAuthenticated: bool,
    queries: seq<CallAttributes>)

  /**
   * Lines 168-228, once the negotiating query answered negotiated: the
   * locality and PID queries; for any protocol but LRPC, the kept record
   * is replaced by the last one passed to the runtime (the assignment at
   * line 193) and the local address is queried; finally the principal
   * name. The queries are those sent after the negotiating ones.
   */
  function Details(rt: Runtime, negotiated: CallAttributes): (d: Fetched)
    ensures d.isAuthenticated <==> d.clientPrincipalName.Some? && d.clientPrincipalName.value != ""
    ensures d.callAttrs.version == negotiated.version
  {
    var lrpc := negotiated.protocolSequence == PROTOSEQ_LRPC;
    var l := Locality(rt, negotiated);
    var adr := Ask(rt, l.attrs, QUERY_ADDRESS);
    var kept := if lrpc then l.stored else l.attrs;
    var attrs := if lrpc then l.attrs else adr.attrs;
    var address := if !lrpc && adr.status == RPC_S_OK then Some(adr.attrs.callLocalAddress) else None;
    var p := PrincipalQuery(rt, kept, attrs);
    Fetched(p.stored, address, p.name, p.authenticated, l.queries + (if lrpc then [] else adr.queries) + [p.query])
  }

  /** GetCallInfo on an empty cache: the negotiating queries, then, if they succeeded, the details. */
  function Fetch(rt: Runtime): (f: Fetched)
    ensures f.callAttrs.version != 0 <==> Negotiate(rt).status == RPC_S_OK
    ensures Negotiate(rt).status != RPC_S_OK ==> f == Fetched(EmptyCallAttributes, None, None, false, Negotiate(rt).queries)
    ensures f.isAuthenticated <==> f.clientPrincipalName.Some? && f.clientPrincipalName.value != ""
  {
    var n := Negotiate(rt);
    if n.status != RPC_S_OK then
      Fetched(EmptyCallAttributes, None, None, false, n.queries)
    else
      var d := Details(rt, n.attrs);
      d.(queries := n.queries + d.queries)
  }

  /**
   * After negotiation, the caller's local address is asked for exactly
   * when the protocol is not LRPC, the PID only for LRPC, and an address
   * is recorded only when it was asked for.
   */
  lemma {:induction false} DetailsQueriesByProtocol(rt: Runtime, negotiated: CallAttributes)
    ensures var d := Details(rt, negotiated); var lrpc := negotiated.protocolSequence == PROTOSEQ_LRPC;
      (Queried(d.queries, QUERY_ADDRESS) <==> !lrpc) &&
      (Queried(d.queries, QUERY_PID) ==> lrpc) &&
      (d.clientAddress.Some? ==> Queried(d.queries, QUERY_ADDRESS))
  {
    var lrpc := negotiated.protocolSequence == PROTOSEQ_LRPC;
    var l := Locality(rt, negotiated);
    var adr := Ask(rt, l.attrs, QUERY_ADDRESS);
    var kept := if lrpc then l.stored else l.attrs;
    var attrs := if lrpc then l.attrs else adr.attrs;
    var p := PrincipalQuery(rt, kept, attrs);
    var aq := if lrpc then [] else adr.queries;
    assert Details(rt, negotiated).queries == l.queries + aq + [p.query];
    QueriedAppend(l.queries + aq, [p.query], QUERY_ADDRESS);
    QueriedAppend(l.queries + aq, [p.query], QUERY_PID);
    QueriedAppend(l.queries, aq, QUERY_ADDRESS);
    QueriedAppend(l.queries, aq, QUERY_PID);
    if !lrpc {
      assert adr.queries[0] in aq;
    }
  }

  /**
   * The caller's local address is asked for exactly when the negotiating
   * query succeeded and the protocol is not LRPC; the PID only for LRPC;
   * an address is recorded only when it was asked for.
   */
  lemma {:induction false} FetchQueriesByProtocol(rt: Runtime)
    ensures var f := Fetch(rt); var n := Negotiate(rt);
      (Queried(f.queries, QUERY_ADDRESS) <==> n.status == RPC_S_OK && n.attrs.protocolSequence != PROTOSEQ_LRPC) &&
      (Queried(f.queries, QUERY_PID) ==> n.status == RPC_S_OK && n.attrs.protocolSequence == PROTOSEQ_LRPC) &&
      (f.clientAddress.Some? ==> Queried(f.queries, QUERY_ADDRESS))
  {
    var n := Negotiate(rt);
    assert forall q :: q in n.queries ==> q.flags == QUERY_NEGOTIATE;
    if n.status == RPC_S_OK {
      var d := Details(rt, n.attrs);
      DetailsQueriesByProtocol(rt, n.attrs);
      QueriedAppend(n.queries, d.queries, QUERY_ADDRESS);
      QueriedAppend(n.queries, d.queries, QUERY_PID);
    }
  }

  /** On a version-1 runtime a caller with a principal name is taken to be local. */
  lemma {:induction false} FetchVersionOneIsLocal(rt: Runtime)
    requires Negotiate(rt).attrs.version == 1 && Fetch(rt).isAuthenticated
    ensures Fetch(rt).callAttrs.isClientLocal == LOCALITY_LOCAL
  {
    var n := Negotiate(rt);
    var lrpc := n.attrs.protocolSequence == PROTOSEQ_LRPC;
    var l := Locality(rt, n.attrs);
    var adr := Ask(rt, l.attrs, QUERY_ADDRESS);
    var kept := if lrpc then l.stored else l.attrs;
    var attrs := if lrpc then l.attrs else adr.attrs;
    assert attrs.version == 1;
    assert Details(rt, n.attrs).callAttrs == PrincipalQuery(rt, kept, attrs).stored;
  }

  /**
   * The negotiating queries come first; every later query uses the
   * version they settled on, so there is no fallback beyond the one retry.
   */
  lemma {:induction false} FetchQueryVersions(rt: Runtime)
    ensures var f := Fetch(rt); var n := Negotiate(rt);
      |n.queries| <= |f.queries| && f.queries[..|n.queries|] == n.queries &&
      forall k :: |n.queries| <= k < |f.queries| ==> f.queries[k].version == n.attrs.version
  {
    var n := Negotiate(rt);
    if n.status == RPC_S_OK {
      var lrpc := n.attrs.protocolSequence == PROTOSEQ_LRPC;
      var l := Locality(rt, n.attrs);
      var adr := Ask(rt, l.attrs, QUERY_ADDRESS);
      var kept := if lrpc then l.stored else l.attrs;
      var attrs := if lrpc then l.attrs else adr.attrs;
      var p := PrincipalQuery(rt, kept, attrs);
      var aq := if lrpc then [] else adr.queries;
      var rest := l.queries + aq + [p.query];
      assert Details(rt, n.attrs).queries == rest;
      assert Fetch(rt).queries == n.queries + rest;
      assert SameVersion(l.queries, n.attrs.version);
      SameVersionAppend(l.queries, aq, n.attrs.version);
      SameVersionAppend(l.queries + aq, [p.query], n.attrs.version);
    }
  }

  /** How an impersonation scope ends when disposed. */
  datatype Scope = IgnoreOnDispose | ImpersonationContext

  /** A native impersonation call on the client binding. */
  datatype ImpersonationCall = ImpersonateClient | RevertToSelfEx

  /** The result of Impersonate, the new flag, and whether RpcImpersonateClient was called. */
  datatype Impersonation = Impersonation(scope: Result<Scope>, impersonating: bool, nativeCalled: bool)

  /**
   * Impersonate(): reentrant. Already impersonating gives a scope that
   * does nothing; an unauthenticated caller is refused before the runtime
   * is asked; otherwise the runtime's status decides.
   */
  function ImpersonateStep(impersonating: bool, authenticated: bool, status: RpcError): (r: Impersonation)
    ensures impersonating ==> r == Impersonation(Success(IgnoreOnDispose), true, false)
    ensures !impersonating && !authenticated ==> r == Impersonation(Failure(UnauthorizedAccessException), false, false)
    ensures r.nativeCalled <==> !impersonating && authenticated
    ensures r.impersonating <==> impersonating || (authenticated && status == RPC_S_OK)
    ensures r.scope.Success? <==> r.impersonating
    ensures r.nativeCalled && status == RPC_S_OK ==> r.scope == Success(ImpersonationContext)
    ensures r.nativeCalled && status != RPC_S_OK ==> r.scope.Failure? && r.scope.ex.RpcException? && RpcExceptions.RpcErrorOf(r.scope.ex) == status
  {
    if impersonating then Impersonation(Success(IgnoreOnDispose), true, false)
    else if !authenticated then Impersonation(Failure(UnauthorizedAccessException), false, false)
    else
      var o := RpcExceptions.Assert(status);
      if o.Raised? then Impersonation(Failure(o.ex), false, true)
      else Impersonation(Success(ImpersonationContext), true, true)
  }

  /** The outcome of RevertToSelf, the new flag, and whether RpcRevertToSelfEx was called. */
  datatype Revert = Revert(outcome: Outcome, impersonating: bool, nativeCalled: bool)

  /**
   * RevertToSelf(): the runtime is asked only while impersonating. A
   * failed revert raises before the flag is cleared, so the flag stays set
   * exactly when the revert raised.
   */
  function RevertStep(impersonating: bool, status: RpcError): (r: Revert)
    ensures r.nativeCalled <==> impersonating
    ensures r.outcome.Raised? <==> impersonating && status != RPC_S_OK
    ensures r.outcome.Raised? ==> r.outcome == RpcExceptions.Assert(status)
    ensures r.impersonating <==> r.outcome.Raised?
  {
    if impersonating then
      var o := RpcExceptions.Assert(status);
      Revert(o, o.Raised?, true)
    else
      Revert(Ok, false, false)
  }

  /** Disposing a scope: the no-op scope does nothing; the context reverts. */
  function DisposeScopeStep(scope: Scope, impersonating: bool, status: RpcError): (r: Revert)
    ensures scope == IgnoreOnDispose ==> r == Revert(Ok, impersonating, false)
    ensures scope == ImpersonationContext ==> r == RevertStep(impersonating, status)
  {
    if scope == IgnoreOnDispose then Revert(Ok, impersonating, false) else RevertStep(impersonating, status)
  }

  /**
   * Two nested Impersonate scopes: the inner one is the no-op scope, so
   * disposing it leaves the caller impersonated; disposing the outer one
   * (with a successful revert) ends the impersonation.
   */
  lemma NestedScopes(authenticated: bool, impersonateStatus: RpcError, revertStatus: RpcError)
    requires authenticated && impersonateStatus == RPC_S_OK && revertStatus == RPC_S_OK
    ensures var outer := ImpersonateStep(false, authenticated, impersonateStatus);
            var inner := ImpersonateStep(outer.impersonating, authenticated, impersonateStatus);
            var innerDone := DisposeScopeStep(inner.scope.value, inner.impersonating, revertStatus);
            var outerDone := DisposeScopeStep(outer.scope.value, innerDone.impersonating, revertStatus);
            outer.scope == Success(ImpersonationContext) && inner.scope == Success(IgnoreOnDispose) &&
            innerDone.impersonating && !innerDone.nativeCalled &&
            !outerDone.impersonating && outerDone.nativeCalled && outerDone.outcome == Ok
  {
  }

  class RpcClientInfo {
    /** _clientHandle */
    const clientHandle: Address
    /** _impersonating */
    var impersonating: bool
    /** _callAttrs; Version 0 means nothing is cached */
    var callAttrs: CallAttributes
    /** _clientAddress; None is null */
    var clientAddress: Option<seq<uint8>>
    /** _clientPrincipalName; None is null */
    var clientPrincipalName: Option<string>
    /** _isAuthenticated */
    var isAuthenticated: bool
    /** Every request sent to RpcServerInqCallAttributes, in order. */
    var queries: seq<CallAttributes>
    /** Every impersonation call made to the runtime, in order. */
    var impersonationCalls: seq<ImpersonationCall>

    /**
     * Until a query succeeds, nothing that a query fills in is set; and
     * the caller counts as authenticated exactly when a non-empty principal
     * name was found.
     */
    ghost predicate Valid()
      reads this
    {
      (callAttrs.version == 0 ==>
        callAttrs == EmptyCallAttributes && clientAddress == None && clientPrincipalName == None && !isAuthenticated) &&
      (isAuthenticated <==> clientPrincipalName.Some? && clientPrincipalName.value != "")
    }

    /** new RpcClientInfo(clientHandle) */
    constructor (clientHandle: Address)
      ensures Valid() && this.clientHandle == clientHandle
      ensures !impersonating && callAttrs == EmptyCallAttributes
      ensures queries == [] && impersonationCalls == []
    {
      this.clientHandle := clientHandle;
      impersonating := false;
      callAttrs := EmptyCallAttributes;
      clientAddress := None;
      clientPrincipalName := None;
      isAuthenticated := false;
      queries := [];
      impersonationCalls := [];
    }

    /** The call-info fields now stand where GetCallInfo leaves them, from the given earlier values. */
    ghost predicate Refreshed(rt: Runtime, attrs0: CallAttributes, address0: Option<seq<uint8>>, name0: Option<string>, auth0: bool, queries0: seq<CallAttributes>)
      reads this
    {
      if attrs0.version != 0 then
        callAttrs == attrs0 && clientAddress == address0 && clientPrincipalName == name0 &&
        isAuthenticated == auth0 && queries == queries0
      else
        Holds(Fetch(rt), queries0)
    }

    /** The cache holds the record f, and the queries made are queries0 followed by f's. */
    ghost predicate Holds(f: Fetched, queries0: seq<CallAttributes>)
      reads this
    {
      callAttrs == f.callAttrs && clientAddress == f.clientAddress && clientPrincipalName == f.clientPrincipalName &&
      isAuthenticated == f.isAuthenticated && queries == queries0 + f.queries
    }

    /** One query: attrs.Flags = flags, then RpcServerInqCallAttributes(_clientHandle, ref attrs). */
    method Inquire(rt: Runtime, attrs: CallAttributes, flags: int) returns (p: Phase)
      modifies this
      ensures p == Ask(rt, attrs, flags)
      ensures queries == old(queries) + p.queries
      ensures impersonating == old(impersonating) && impersonationCalls == old(impersonationCalls)
      ensures callAttrs == old(callAttrs) && clientAddress == old(clientAddress)
      ensures clientPrincipalName == old(clientPrincipalName) && isAuthenticated == old(isAuthenticated)
    {
      p := Ask(rt, attrs, flags);
      queries := queries + p.queries;
    }

    /** Lines 155-164: the version-2 query and its single version-1 retry. */
    method InquireNegotiate(rt: Runtime) returns (p: Phase)
      modifies this
      ensures p == Negotiate(rt) && queries == old(queries) + p.queries
      ensures impersonating == old(impersonating) && impersonationCalls == old(impersonationCalls)
      ensures callAttrs == old(callAttrs) && clientAddress == old(clientAddress)
      ensures clientPrincipalName == old(clientPrincipalName) && isAuthenticated == old(isAuthenticated)
    {
      var first := Inquire(rt, EmptyCallAttributes.(version := 2), QUERY_NEGOTIATE);
      p := first;
      if p.status == RPC_S_INVALID_ARG {
        var second := Inquire(rt, p.attrs.(version := 1), QUERY_NEGOTIATE);
        p := Phase(second.status, second.attrs, first.queries + second.queries);
      }
    }

    /** Lines 170-181, on the record the negotiating query returned. */
    method InquireLocality(rt: Runtime, negotiated: CallAttributes) returns (attrs: CallAttributes)
      modifies this
      ensures var l := Locality(rt, negotiated);
        callAttrs == l.stored && attrs == l.attrs && queries == old(queries) + l.queries
      ensures impersonating == old(impersonating) && impersonationCalls == old(impersonationCalls)
      ensures clientAddress == old(clientAddress)
      ensures clientPrincipalName == old(clientPrincipalName) && isAuthenticated == old(isAuthenticated)
    {
      callAttrs := negotiated;
      var loc := Inquire(rt, negotiated, QUERY_LOCALITY);
      attrs := loc.attrs;
      if loc.status == RPC_S_OK {
        callAttrs := callAttrs.(isClientLocal := loc.attrs.isClientLocal);
        if callAttrs.protocolSequence == PROTOSEQ_LRPC {
          var pid := Inquire(rt, attrs, QUERY_PID);
          attrs := pid.attrs;
          if pid.status == RPC_S_OK {
            callAttrs := callAttrs.(clientPid := pid.attrs.clientPid);
          }
        }
      }
    }

    /** Lines 211-228. */
    method InquirePrincipal(rt: Runtime, attrs: CallAttributes)
      modifies this
      ensures var p := PrincipalQuery(rt, old(callAttrs), attrs);
        callAttrs == p.stored && queries == old(queries) + [p.query] &&
        clientPrincipalName == (if p.name.Some? then p.name else old(clientPrincipalName)) &&
        isAuthenticated == (p.authenticated || old(isAuthenticated))
      ensures impersonating == old(impersonating) && impersonationCalls == old(impersonationCalls)
      ensures clientAddress == old(clientAddress)
    {
      var pr := Inquire(rt, attrs, QUERY_PRINCIPAL);
      if pr.status == RPC_S_OK {
        clientPrincipalName := Some(pr.attrs.clientPrincipalName);
        if clientPrincipalName.value != "" {
          isAuthenticated := true;
          if pr.attrs.version == 1 {
            callAttrs := callAttrs.(isClientLocal := LOCALITY_LOCAL);
          }
        }
      }
    }

    /** Lines 184-209: the kept record becomes the last one passed to the runtime, then the address query. */
    method InquireAddress(rt: Runtime, attrs: CallAttributes) returns (next: CallAttributes)
      modifies this
      ensures var adr := Ask(rt, attrs, QUERY_ADDRESS);
        callAttrs == attrs && next == adr.attrs && queries == old(queries) + adr.queries &&
        clientAddress == (if adr.status == RPC_S_OK then Some(adr.attrs.callLocalAddress) else old(clientAddress))
      ensures impersonating == old(impersonating) && impersonationCalls == old(impersonationCalls)
      ensures clientPrincipalName == old(clientPrincipalName) && isAuthenticated == old(isAuthenticated)
    {
      callAttrs := attrs;
      var adr := Inquire(rt, attrs, QUERY_ADDRESS);
      if adr.status == RPC_S_OK {
        clientAddress := Some(adr.attrs.callLocalAddress);
      }
      next := adr.attrs;
    }

    /** Lines 168-228, once the negotiating query has answered negotiated, on an empty cache. */
    method InquireDetails(rt: Runtime, negotiated: CallAttributes)
      requires clientAddress == None && clientPrincipalName == None
      modifies this
      ensures Holds(Details(rt, negotiated), old(queries))
      ensures impersonating == old(impersonating) && impersonationCalls == old(impersonationCalls)
    {
      ghost var lrpc := negotiated.protocolSequence == PROTOSEQ_LRPC;
      ghost var l := Locality(rt, negotiated);
      ghost var adr0 := Ask(rt, l.attrs, QUERY_ADDRESS);
      ghost var kept := if lrpc then l.stored else l.attrs;
      ghost var attrs := if lrpc then l.attrs else adr0.attrs;
      ghost var p := PrincipalQuery(rt, kept, attrs);
      isAuthenticated := false;
      var a := InquireLocality(rt, negotiated);
      if callAttrs.protocolSequence != PROTOSEQ_LRPC {
        a := InquireAddress(rt, a);
      }
      assert callAttrs == kept && a == attrs;
      InquirePrincipal(rt, a);
      assert queries == old(queries) + (l.queries + (if lrpc then [] else adr0.queries) + [p.query]);
    }

    /** Lines 155-228: the whole series of queries, on an empty cache. */
    method InquireAll(rt: Runtime)
      requires Valid() && callAttrs.version == 0
      modifies this
      ensures Holds(Fetch(rt), old(queries))
      ensures impersonating == old(impersonating) && impersonationCalls == old(impersonationCalls)
    {
      var n := InquireNegotiate(rt);
      if n.status == RPC_S_OK {
        InquireDetails(rt, n.attrs);
        assert queries == old(queries) + n.queries + Details(rt, n.attrs).queries;
      }
    }

    /** GetCallInfo(): the cached record, or a fresh series of queries. */
    method GetCallInfo(rt: Runtime) returns (attrs: CallAttributes)
      requires Valid()
      modifies this
      ensures Valid()
      ensures Refreshed(rt, old(callAttrs), old(clientAddress), old(clientPrincipalName), old(isAuthenticated), old(queries))
      ensures attrs == callAttrs
      ensures impersonating == old(impersonating) && impersonationCalls == old(impersonationCalls)
    {
      if callAttrs.version == 0 {
        InquireAll(rt);
      }
      attrs := callAttrs;
    }

    /** IsAuthenticated: an authentication service other than NONE, or a non-empty principal name. */
    method IsAuthenticated(rt: Runtime) returns (b: bool)
      requires Valid()
      modifies this
      ensures Valid()
      ensures Refreshed(rt, old(callAttrs), old(clientAddress), old(clientPrincipalName), old(isAuthenticated), old(queries))
      ensures b <==> callAttrs.authenticationService != RPC_C_AUTHN_NONE || (clientPrincipalName.Some? && clientPrincipalName.value != "")
      ensures impersonating == old(impersonating) && impersonationCalls == old(impersonationCalls)
    {
      var attrs := GetCallInfo(rt);
      b := attrs.authenticationService != RPC_C_AUTHN_NONE || isAuthenticated;
    }

    /**
     * IsClientLocal: LRPC, or a Local locality. Each operand reads
     * GetCallInfo afresh: rt1 answers the first read, rt2 the second, and
     * the second read is made only when the first is not LRPC. While
     * nothing could be cached, both reads ask the runtime, and the answer
     * is the second record's locality alone.
     */
    method IsClientLocal(rt1: Runtime, rt2: Runtime) returns (b: bool)
      requires Valid()
      modifies this
      ensures Valid()
      ensures old(callAttrs.version) != 0 || Fetch(rt1).callAttrs.version != 0 ==>
        Refreshed(rt1, old(callAttrs), old(clientAddress), old(clientPrincipalName), old(isAuthenticated), old(queries)) &&
        (b <==> callAttrs.protocolSequence == PROTOSEQ_LRPC || callAttrs.isClientLocal == LOCALITY_LOCAL)
      ensures old(callAttrs.version) == 0 && Fetch(rt1).callAttrs.version == 0 ==>
        Holds(Fetch(rt2), old(queries) + Fetch(rt1).queries) &&
        (b <==> Fetch(rt2).callAttrs.isClientLocal == LOCALITY_LOCAL)
      ensures impersonating == old(impersonating) && impersonationCalls == old(impersonationCalls)
    {
      var first := GetCallInfo(rt1);
      b := first.protocolSequence == PROTOSEQ_LRPC;
      if !b {
        var second := GetCallInfo(rt2);
        b := second.isClientLocal == LOCALITY_LOCAL;
      }
    }

    /** ClientAddress: a copy of the address, or an empty array when none was found. */
    method ClientAddress(rt: Runtime) returns (address: seq<uint8>)
      requires Valid()
      modifies this
      ensures Valid()
      ensures Refreshed(rt, old(callAttrs), old(clientAddress), old(clientPrincipalName), old(isAuthenticated), old(queries))
      ensures clientAddress == None ==> address == []
      ensures clientAddress.Some? ==> address == clientAddress.value
      ensures impersonating == old(impersonating) && impersonationCalls == old(impersonationCalls)
    {
      var _ := GetCallInfo(rt);
      address := if clientAddress == None then [] else clientAddress.value;
    }

    /** ClientPrincipalName: the name the principal query found; None while no such query succeeded. */
    method ClientPrincipalName(rt: Runtime) returns (name: Option<string>)
      requires Valid()
      modifies this
      ensures Valid()
      ensures Refreshed(rt, old(callAttrs), old(clientAddress), old(clientPrincipalName), old(isAuthenticated), old(queries))
      ensures name == clientPrincipalName
      ensures impersonating == old(impersonating) && impersonationCalls == old(impersonationCalls)
    {
      var _ := GetCallInfo(rt);
      name := clientPrincipalName;
    }

    /** Impersonate(): status is the answer RpcImpersonateClient would give. */
    method Impersonate(rt: Runtime, status: RpcError) returns (scope: Result<Scope>)
      requires Valid()
      modifies this
      ensures Valid()
      ensures old(impersonating) ==> scope == Success(IgnoreOnDispose) && impersonating && unchanged(this)
      ensures !old(impersonating) ==>
        Refreshed(rt, old(callAttrs), old(clientAddress), old(clientPrincipalName), old(isAuthenticated), old(queries)) &&
        var r := ImpersonateStep(false, callAttrs.authenticationService != RPC_C_AUTHN_NONE || isAuthenticated, status);
        scope == r.scope && impersonating == r.impersonating &&
        impersonationCalls == old(impersonationCalls) + (if r.nativeCalled then [ImpersonateClient] else [])
    {
      if impersonating {
        return Success(IgnoreOnDispose);
      }
      var authenticated := IsAuthenticated(rt);
      if !authenticated {
        return Failure(UnauthorizedAccessException);
      }
      impersonationCalls := impersonationCalls + [ImpersonateClient];
      var o := RpcExceptions.Assert(status);
      if o.Raised? {
        return Failure(o.ex);
      }
      impersonating := true;
      scope := Success(ImpersonationContext);
    }

    /** RevertToSelf(): status is the answer RpcRevertToSelfEx would give. */
    method RevertToSelf(status: RpcError) returns (o: Outcome)
      requires Valid()
      modifies this
      ensures Valid()
      ensures var r := RevertStep(old(impersonating), status);
        o == r.outcome && impersonating == r.impersonating &&
        impersonationCalls == old(impersonationCalls) + (if r.nativeCalled then [RevertToSelfEx] else [])
      ensures callAttrs == old(callAttrs) && queries == old(queries)
      ensures clientAddress == old(clientAddress) && clientPrincipalName == old(clientPrincipalName)
      ensures isAuthenticated == old(isAuthenticated)
    {
      o := Ok;
      if impersonating {
        impersonationCalls := impersonationCalls + [RevertToSelfEx];
        o := RpcExceptions.Assert(status);
        if o.Raised? {
          return;
        }
      }
      impersonating := false;
    }

    /** Dispose() of a scope Impersonate returned. */
    method DisposeScope(scope: Scope, status: RpcError) returns (o: Outcome)
      requires Valid()
      modifies this
      ensures Valid()
      ensures var r := DisposeScopeStep(scope, old(impersonating), status);
        o == r.outcome && impersonating == r.impersonating &&
        impersonationCalls == old(impersonationCalls) + (if r.nativeCalled then [RevertToSelfEx] else [])
      ensures callAttrs == old(callAttrs) && queries == old(queries)
      ensures clientAddress == old(clientAddress) && clientPrincipalName == old(clientPrincipalName)
      ensures isAuthenticated == old(isAuthenticated)
    {
      o := Ok;
      if scope == ImpersonationContext {
        o := RevertToSelf(status);
      }
    }

    /** Dispose(): reverts any impersonation (the cached WindowsIdentity is not part of this model). */
    method Dispose(status: RpcError) returns (o: Outcome)
      requires Valid()
      modifies this
      ensures Valid()
      ensures var r := RevertStep(old(impersonating), status);
        o == r.outcome && impersonating == r.impersonating &&
        impersonationCalls == old(impersonationCalls) + (if r.nativeCalled then [RevertToSelfEx] else [])
      ensures callAttrs == old(callAttrs) && queries == old(queries)
      ensures clientAddress == old(clientAddress) && clientPrincipalName == old(clientPrincipalName)
      ensures isAuthenticated == old(isAuthenticated)
    {
      o := RevertToSelf(status);
    }
  }

  /** Once a query has succeeded, GetCallInfo answers from the cache and asks the runtime nothing. */
  method CachedCallInfo(c: RpcClientInfo, rt1: Runtime, rt2: Runtime) returns (a1: CallAttributes, a2: CallAttributes)
    requires c.Valid()
    modifies c
    ensures Negotiate(rt1).status == RPC_S_OK || old(c.callAttrs.version) != 0 ==> a1 == a2 && c.queries == old(c.queries) + (if old(c.callAttrs.version) != 0 then [] else Fetch(rt1).queries)
    ensures old(c.callAttrs.version) == 0 && Negotiate(rt1).status != RPC_S_OK ==> c.queries == old(c.queries) + Negotiate(rt1).queries + Fetch(rt2).queries
  {
    a1 := c.GetCallInfo(rt1);
    a2 := c.GetCallInfo(rt2);
  }
}
