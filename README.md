# CSharpTest.Net.RpcLibrary in Dafny

A model of the core of CSharpTest.Net.RpcLibrary. The library is a .NET wrapper around the Win32 RPC
runtime (Rpcrt4). Clients and servers exchange opaque byte arrays through a
single MIDL-less interface procedure, and every interface is named by a GUID.

The model covers these parts of the library:

- `RpcHandle`: the native handle plus an append-only list of pinned blocks and
  function pointers. It is released handle first, then the list from last to first.
- The `RpcApi` statics: the NDR format tables chosen by pointer width, the
  pinned procedure table, and `Free`/`Alloc` on the local heap.
- The record builders `RPC_CLIENT_INTERFACE`, `MIDL_STUB_DESC`,
  `MIDL_SERVER_INFO` and `SEC_WINNT_AUTH_IDENTITY`, each with the blocks it pins.
- `RpcException` and its `Assert` helpers, including the unchecked `uint`/`int` cast of status codes.
- `UsageCounter`: the process-wide semaphore that counts listening servers.
- `RpcClientApi`: authentication with its defaults and the Anonymous rewrite,
  one `RpcBindingSetAuthInfo` call per authentication type, stub-descriptor
  reuse, the 32-bit argument frame and the handling of the `NdrClientCall2` reply.
- `RpcServerApi`: interface registration (`RegisterIf` or `RegisterIf2`, with
  its limits), protocols, authentication, start and stop listening over the
  shared counter, entry-point dispatch, and the single `OnExecute` subscription.
- `RpcClientInfo`: the lazy, cached series of `RpcServerInqCallAttributes`
  queries, its version-2 to version-1 fallback, and reentrant impersonation.

Every native call is a parameter of the model. A status code stands for what
the runtime answers, and a function stands for a runtime consulted more than
once:

- `ClientInfo.Runtime` answers `RpcServerInqCallAttributes`;
- `ClientApi.AuthAnswer` answers `RpcBindingSetAuthInfo`;
- `ClientApi.NdrReply` is what `NdrClientCall2` returns;
- `ServerApi.Behaviour` is what the subscribed handler does.

A raised exception is a value (`Outcome`, `Result`). Objects whose fields the
library updates are classes (`RpcHandle`, `UsageCounter`, `RpcClientApi`,
`RpcServerApi`, `RpcClientInfo`). Their methods are proved against the pure
functions that state what the library promises. The module
`ListenerSystem` puts every server instance of a process together with the
shared counter. It proves the property the counter exists for: the process
listens exactly while some instance does. It also shows how the code as
written breaks that property.

Where the code and its documentation disagree, the model follows the code:

- `AuthenticateAs` with a null credential (`Self`) is not rewritten to
  `RPC_C_PROTECT_LEVEL_DEFAULT`/`RPC_C_AUTHN_NONE`, whatever the doc comment of
  the full overload says. Only a credential with Anonymous's user name and domain
  is rewritten (`ClientApi.SelfIsNotRewritten`).

Behaviour worth knowing, which the model keeps as the code has it:

- A client handle asserts the status of `RpcBindingFree`. When that status is an
  error, the exception skips the release loop of `RpcHandle.Dispose`, and the
  pinned blocks stay in the list. The handle is still zeroed by the `finally`.
- `RevertToSelf` asserts the status of `RpcRevertToSelfEx` before it clears the
  flag, so a failed revert leaves the caller marked as impersonating.
- For every protocol except LRPC, `GetCallInfo` replaces the kept attribute
  record with the record of the locality query (`Interop/RpcClientInfo.cs:193`),
  whether that query succeeded or not. No PID was stored for these protocols,
  and the locality it had copied comes from that same record. What changes is
  the Flags word, which becomes the locality query's, and every other field the
  runtime filled differently in that reply than in the negotiating one.

## Model

| member | source | states |
|---|---|---|
| RpcExceptions.ToNativeErrorCode | src/CSharpTest.Net.RpcLibrary/RpcException.cs:23 | the unchecked (int) cast keeps codes below 2^31 and subtracts 2^32 from the others |
| RpcExceptions.FromNativeErrorCode | src/CSharpTest.Net.RpcLibrary/RpcException.cs:30-33 | the (RpcError) cast of NativeErrorCode agrees with it modulo 2^32 |
| RpcExceptions.NewRpcException | src/CSharpTest.Net.RpcLibrary/RpcException.cs:23 | the exception is an RpcException whose stored code casts back to the constructor's code |
| RpcExceptions.RpcErrorOf | src/CSharpTest.Net.RpcLibrary/RpcException.cs:30-33 | the RpcError property names the code whose constructor builds exactly this exception |
| RpcExceptions.RpcErrorRoundTrip | src/CSharpTest.Net.RpcLibrary/RpcException.cs:23-33 | for every status code, the RpcError property returns the code the exception was built with |
| RpcExceptions.EFailRoundTrip | src/CSharpTest.Net.RpcLibrary/RpcException.cs:23-33 | RPC_E_FAIL (0x80004005) is stored as the negative NativeErrorCode -0x7FFFBFFB and still round-trips |
| RpcExceptions.Assert | src/CSharpTest.Net.RpcLibrary/RpcException.cs:45-53 | returns normally exactly on RPC_S_OK; otherwise raises an RpcException carrying that code |
| RpcExceptions.AssertRaw | src/CSharpTest.Net.RpcLibrary/RpcException.cs:36-39 | the int overload raises exactly for a non-zero raw value, with that value as NativeErrorCode |
| Structs.NewRpcClientInterface | src/CSharpTest.Net.RpcLibrary/Interop/Structs/RPC_CLIENT_INTERFACE.cs:37-49 | the interface id carries version 1.0, the transfer syntax is IID_SYNTAX at 2.0, Length is the struct size for the pointer width, and every other field is zero |
| Structs.ClientInterfaceDependsOnlyOnIid | src/CSharpTest.Net.RpcLibrary/Interop/Structs/RPC_CLIENT_INTERFACE.cs:33-49 | the transfer syntax is the same for every interface, and two records are equal iff their iids are |
| Structs.NewAuthIdentity | src/CSharpTest.Net.RpcLibrary/Interop/Structs/SEC_WINNT_AUTH_IDENTITY.cs:30-39 | each string is stored with its own length, and the flags are SEC_WINNT_AUTH_IDENTITY_UNICODE |
| Structs.AuthIdentityOf | src/CSharpTest.Net.RpcLibrary/Interop/Structs/SEC_WINNT_AUTH_IDENTITY.cs:25-28 | the credential's Domain, UserName and Password land in the domain, user and password slots of a well-formed identity |
| RpcApiTables.TypeFormat64 | src/CSharpTest.Net.RpcLibrary/Interop/RpcApi.cs:40-46 | the 64-bit type table is 39 bytes and ends in a zero byte |
| RpcApiTables.TypeFormat32 | src/CSharpTest.Net.RpcLibrary/Interop/RpcApi.cs:60-66 | the 32-bit type table is 39 bytes and ends in a zero byte |
| RpcApiTables.FuncFormat64 | src/CSharpTest.Net.RpcLibrary/Interop/RpcApi.cs:47-56 | the 64-bit procedure table is 61 bytes and ends in a zero byte |
| RpcApiTables.FuncFormat32 | src/CSharpTest.Net.RpcLibrary/Interop/RpcApi.cs:67-75 | the 32-bit procedure table is 59 bytes and ends in a zero byte |
| RpcApiTables.TypeFormatsDiffer | src/CSharpTest.Net.RpcLibrary/Interop/RpcApi.cs:38-76 | the 64- and 32-bit type tables differ exactly at offsets 8 and 32, where they hold the pointer-sized values |
| RpcApiTables.FuncFormatsDiffer | src/CSharpTest.Net.RpcLibrary/Interop/RpcApi.cs:47-75 | the 64-bit procedure table is two bytes longer, shares the first 8 bytes, and declares stack size 0x30 against 0x18 |
| RpcApiTables.Initialize | src/CSharpTest.Net.RpcLibrary/Interop/RpcApi.cs:33-78 | Is64BitProcess iff IntPtr.Size is 8; both tables come from that width's branch; FUNC_FORMAT_PTR pins the chosen FUNC_FORMAT |
| RpcApiTables.SelectedTablesWellFormed | src/CSharpTest.Net.RpcLibrary/Interop/RpcApi.cs:38-77 | for either width the type table is 39 bytes, the procedure table is 61 or 59, both end in 0x00, and the pinned table is never the other width's |
| RpcApiTables.Free | src/CSharpTest.Net.RpcLibrary/Interop/RpcApi.cs:88-95 | exactly one LocalFree of the pointer for a non-zero pointer, and nothing for IntPtr.Zero |
| RpcApiTables.AllocCall | src/CSharpTest.Net.RpcLibrary/Interop/RpcApi.cs:103-108 | one LocalAlloc with LPTR (0x40) and the requested size |
| Handles.FindFirst | src/CSharpTest.Net.RpcLibrary/Interop/RpcHandle.cs:40-52 | the index found holds an entry of the type and no earlier entry does; None iff no entry has the type |
| Handles.HandleRelease | src/CSharpTest.Net.RpcLibrary/Interop/RpcHandle.cs:77-80 | the native handle is released iff it is non-zero |
| Handles.ReleaseOrderLength | src/CSharpTest.Net.RpcLibrary/Interop/RpcHandle.cs:82-85 | the release loop releases exactly one entry per pinned block |
| Handles.ReleaseOrderAt | src/CSharpTest.Net.RpcLibrary/Interop/RpcHandle.cs:82-85 | the k-th release is of the entry k places from the end of the list |
| Handles.ReleaseOrderAppend | src/CSharpTest.Net.RpcLibrary/Interop/RpcHandle.cs:82-85 | entries pinned later are released earlier: releasing a + b releases b's entries, then a's |
| Handles.ReleasedExactlyOnce | src/CSharpTest.Net.RpcLibrary/Interop/RpcHandle.cs:82-85 | with distinct entries, each entry is released at exactly one position, the list's length minus 1 minus its own index |
| Handles.Overwrite | src/CSharpTest.Net.RpcLibrary/Interop/Structs/MIDL_SERVER_INFO.cs:62 | StructureToPtr replaces the contents of the blocks at that address and leaves every other entry and every address unchanged |
| Handles.OverwriteOne | src/CSharpTest.Net.RpcLibrary/Interop/Structs/MIDL_SERVER_INFO.cs:62 | when the address occurs once, exactly that entry is replaced |
| Handles.RpcHandle.constructor | src/CSharpTest.Net.RpcLibrary/Interop/RpcHandle.cs:24-25 | a new handle is zero, with an empty pinned list |
| Handles.RpcHandle.CreatePtr | src/CSharpTest.Net.RpcLibrary/Interop/RpcHandle.cs:54-59 | the data is pinned at a fresh non-zero address and appended to the list; nothing else changes |
| Handles.RpcHandle.Pin | src/CSharpTest.Net.RpcLibrary/Interop/RpcHandle.cs:35-38 | returns the address of a newly appended block holding the data |
| Handles.RpcHandle.PinFunction | src/CSharpTest.Net.RpcLibrary/Interop/RpcHandle.cs:27-33 | appends a function pointer for the delegate and returns its fresh non-zero address |
| Handles.RpcHandle.GetPtr | src/CSharpTest.Net.RpcLibrary/Interop/RpcHandle.cs:40-52 | true iff some entry has the type, and then the value is the first such entry; otherwise false and the default |
| Handles.RpcHandle.WriteBack | src/CSharpTest.Net.RpcLibrary/Interop/Structs/MIDL_SERVER_INFO.cs:62 | the pinned block at the address now holds the record, and everything else is unchanged |
| Handles.RpcHandle.Dispose | src/CSharpTest.Net.RpcLibrary/Interop/RpcHandle.cs:71-96 | the handle is zero on every exit; a client handle's failed release raises that RpcException and keeps the list; otherwise the handle (when non-zero) and then every entry, last first, are released and the list is cleared |
| Handles.DisposeTwice | src/CSharpTest.Net.RpcLibrary/Interop/RpcHandle.cs:66-96 | after a normal Dispose, a second one succeeds and releases nothing more |
| StubDescriptors.StubDescRecord | src/CSharpTest.Net.RpcLibrary/Interop/Structs/MIDL_STUB_DESC.cs:53-77 | the descriptor holds the interface and the allocator thunks, NDR version 0x50002, MIDL version 0x70001f4, bounds checking and mFlags 1, and null everywhere else |
| StubDescriptors.StubDescRecordInjective | src/CSharpTest.Net.RpcLibrary/Interop/Structs/MIDL_STUB_DESC.cs:53-77 | two descriptors with the same allocator thunks are equal iff the interface and all three pinned addresses are |
| StubDescriptors.NewMidlStubDesc | src/CSharpTest.Net.RpcLibrary/Interop/Structs/MIDL_STUB_DESC.cs:53-77 | server side pins only the type table; client side pins an auto-bind slot, the table and comm/fault offsets (-1, -1), in that order |
| ServerInfo.ServerInfoRecord | src/CSharpTest.Net.RpcLibrary/Interop/Structs/MIDL_SERVER_INFO.cs:48-59 | the stub descriptor, dispatch table, procedure string and offset table are set, and the four private pointers are null |
| ServerInfo.Create | src/CSharpTest.Net.RpcLibrary/Interop/Structs/MIDL_SERVER_INFO.cs:32-40 | exactly eight entries are appended in acquisition order, the first block ends up holding the configured record, and the returned pointer is the server interface |
| ServerInfo.Configure | src/CSharpTest.Net.RpcLibrary/Interop/Structs/MIDL_SERVER_INFO.cs:42-64 | the seven entries appended after the info block, each with its content, and the info block overwritten with the record that points at them |
| ServerInfo.PinInterface | src/CSharpTest.Net.RpcLibrary/Interop/Structs/MIDL_SERVER_INFO.cs:46-48 | the server interface pointing at the info block, the type table, and the server-side stub descriptor for that interface |
| ServerInfo.PinDispatch | src/CSharpTest.Net.RpcLibrary/Interop/Structs/MIDL_SERVER_INFO.cs:50-54 | the entry-point function pointer, a dispatch table holding it, the procedure string, and the offset table {0} |
| UsageCounters.Semaphore.WaitOne | src/CSharpTest.Net.RpcLibrary/Interop/UsageCounter.cs:43 | takes a unit iff one is available; otherwise the count is unchanged |
| UsageCounters.Semaphore.Release | src/CSharpTest.Net.RpcLibrary/Interop/UsageCounter.cs:52 | returns the previous count and adds one, or raises SemaphoreFullException at the maximum |
| UsageCounters.IncrementStep | src/CSharpTest.Net.RpcLibrary/Interop/UsageCounter.cs:37-62 | a successful call takes exactly one unit; fewer than two units, or no lock, times out with the count unchanged; beginUsage runs iff this is the first user, and its exception is the call's |
| UsageCounters.DecrementStep | src/CSharpTest.Net.RpcLibrary/Interop/UsageCounter.cs:65-81 | gives one unit back; endUsage runs iff the last user leaves; a full semaphore raises SemaphoreFullException, and no lock raises TimeoutException |
| UsageCounters.UsageCounter.constructor | src/CSharpTest.Net.RpcLibrary/Interop/UsageCounter.cs:29-34 | the semaphore starts full at int.MaxValue, which is no users |
| UsageCounters.UsageCounter.Increment | src/CSharpTest.Net.RpcLibrary/Interop/UsageCounter.cs:37-62 | the two waits and one release leave exactly IncrementStep's count, callback and outcome |
| UsageCounters.UsageCounter.Decrement | src/CSharpTest.Net.RpcLibrary/Interop/UsageCounter.cs:65-81 | the release leaves exactly DecrementStep's count, callback and outcome |
| UsageCounters.RunCounts | src/CSharpTest.Net.RpcLibrary/Interop/UsageCounter.cs:37-81 | over any feasible series of calls, the count drops by increments minus decrements |
| UsageCounters.FreshCounterUsers | src/CSharpTest.Net.RpcLibrary/Interop/UsageCounter.cs:29-81 | from a fresh counter, the number of users is the balance of increments over decrements |
| ClientInfo.Ask | src/CSharpTest.Net.RpcLibrary/Interop/RpcClientInfo.cs:155-158 | one query with the given Flags; the runtime fills the record but keeps its Version and Flags |
| ClientInfo.Negotiate | src/CSharpTest.Net.RpcLibrary/Interop/RpcClientInfo.cs:155-166 | the first query is version 2; a second one, as version 1, is sent iff the first answered RPC_S_INVALID_ARG; never a third |
| ClientInfo.QueriedAppend | src/CSharpTest.Net.RpcLibrary/Interop/RpcClientInfo.cs:155-228 | a query was sent in a series of queries iff it was sent in one of its two parts |
| ClientInfo.Locality | src/CSharpTest.Net.RpcLibrary/Interop/RpcClientInfo.cs:170-181 | the locality query is always sent; the PID query is sent iff it succeeded and the protocol is LRPC; only those two fields of the kept record change |
| ClientInfo.PrincipalQuery | src/CSharpTest.Net.RpcLibrary/Interop/RpcClientInfo.cs:211-228 | a name is recorded iff the query succeeds; the caller is authenticated iff the name is non-empty, and on a version-1 runtime it is then marked Local |
| ClientInfo.Details | src/CSharpTest.Net.RpcLibrary/Interop/RpcClientInfo.cs:168-228 | the details keep the negotiated version, and the caller is authenticated iff it has a non-empty principal name |
| ClientInfo.Fetch | src/CSharpTest.Net.RpcLibrary/Interop/RpcClientInfo.cs:151-235 | something is cached (Version non-zero) iff negotiation succeeded; on failure nothing beyond the negotiating queries is asked or recorded |
| ClientInfo.DetailsQueriesByProtocol | src/CSharpTest.Net.RpcLibrary/Interop/RpcClientInfo.cs:168-209 | the local address is queried iff the protocol is not LRPC, the PID only for LRPC, and an address is recorded only when it was queried |
| ClientInfo.FetchQueriesByProtocol | src/CSharpTest.Net.RpcLibrary/Interop/RpcClientInfo.cs:151-235 | the address is queried iff negotiation succeeded and the protocol is not LRPC, the PID only for LRPC, and no address without that query |
| ClientInfo.FetchVersionOneIsLocal | src/CSharpTest.Net.RpcLibrary/Interop/RpcClientInfo.cs:218-225 | on a version-1 runtime an authenticated caller is cached as Local |
| ClientInfo.FetchQueryVersions | src/CSharpTest.Net.RpcLibrary/Interop/RpcClientInfo.cs:151-228 | the negotiating queries come first, and every later query uses the version they settled on |
| ClientInfo.ImpersonateStep | src/CSharpTest.Net.RpcLibrary/Interop/RpcClientInfo.cs:44-57 | reentrant: while impersonating, the result is the do-nothing scope with no native call; an unauthenticated caller gets UnauthorizedAccessException first; otherwise the runtime's status decides both the flag and the scope |
| ClientInfo.RevertStep | src/CSharpTest.Net.RpcLibrary/Interop/RpcClientInfo.cs:59-66 | the runtime is asked iff impersonating, and the flag stays set iff that revert raised |
| ClientInfo.DisposeScopeStep | src/CSharpTest.Net.RpcLibrary/Interop/RpcClientInfo.cs:237-256 | the do-nothing scope changes nothing; the impersonation context reverts |
| ClientInfo.NestedScopes | src/CSharpTest.Net.RpcLibrary/Interop/RpcClientInfo.cs:44-66 | with nested scopes, disposing the inner one keeps the impersonation and asks nothing, and disposing the outer one ends it |
| ClientInfo.RpcClientInfo.constructor | src/CSharpTest.Net.RpcLibrary/Interop/RpcClientInfo.cs:32-37 | nothing is cached, nobody is impersonated, and nothing has been asked |
| ClientInfo.RpcClientInfo.Inquire | src/CSharpTest.Net.RpcLibrary/Interop/RpcClientInfo.cs:155-158 | one query as Ask describes, recorded in order, and no cached field changes |
| ClientInfo.RpcClientInfo.InquireNegotiate | src/CSharpTest.Net.RpcLibrary/Interop/RpcClientInfo.cs:155-166 | the record and queries are Negotiate's, and no cached field changes |
| ClientInfo.RpcClientInfo.InquireLocality | src/CSharpTest.Net.RpcLibrary/Interop/RpcClientInfo.cs:170-181 | the kept record and the queries are Locality's |
| ClientInfo.RpcClientInfo.InquirePrincipal | src/CSharpTest.Net.RpcLibrary/Interop/RpcClientInfo.cs:211-228 | the kept record, name and authenticated flag are PrincipalQuery's |
| ClientInfo.RpcClientInfo.InquireAddress | src/CSharpTest.Net.RpcLibrary/Interop/RpcClientInfo.cs:184-209 | the kept record becomes the last record passed to the runtime, and the address is recorded iff its query succeeds |
| ClientInfo.RpcClientInfo.InquireDetails | src/CSharpTest.Net.RpcLibrary/Interop/RpcClientInfo.cs:168-228 | the fields and queries become exactly those of Details |
| ClientInfo.RpcClientInfo.InquireAll | src/CSharpTest.Net.RpcLibrary/Interop/RpcClientInfo.cs:155-228 | on an empty cache, the fields and queries become exactly those of Fetch |
| ClientInfo.RpcClientInfo.GetCallInfo | src/CSharpTest.Net.RpcLibrary/Interop/RpcClientInfo.cs:151-235 | a cached record is returned without any query; otherwise the state is Fetch's |
| ClientInfo.RpcClientInfo.IsAuthenticated | src/CSharpTest.Net.RpcLibrary/Interop/RpcClientInfo.cs:117-120 | true iff the authentication service is not NONE or a non-empty principal name was found, whether the record was cached or fetched now; the cached flag always agrees with the name |
| ClientInfo.RpcClientInfo.IsClientLocal | src/CSharpTest.Net.RpcLibrary/Interop/RpcClientInfo.cs:122-129 | the first read decides LRPC and the second read the locality; once a record is kept (before the call or by the first read) the state is Fetch's of the first read and the answer is LRPC-or-Local on it; when the first read fails too, the state is Fetch's of the second read on top of the first read's queries and the answer is that record's locality alone |
| ClientInfo.RpcClientInfo.ClientAddress | src/CSharpTest.Net.RpcLibrary/Interop/RpcClientInfo.cs:98-105 | a copy of the recorded address, or an empty array when none was recorded |
| ClientInfo.RpcClientInfo.ClientPrincipalName | src/CSharpTest.Net.RpcLibrary/Interop/RpcClientInfo.cs:89-96 | the name the principal query recorded, or null |
| ClientInfo.RpcClientInfo.Impersonate | src/CSharpTest.Net.RpcLibrary/Interop/RpcClientInfo.cs:44-57 | the scope, the new flag and the native call follow ImpersonateStep, after authentication is read through GetCallInfo |
| ClientInfo.RpcClientInfo.RevertToSelf | src/CSharpTest.Net.RpcLibrary/Interop/RpcClientInfo.cs:59-66 | the outcome, the flag and the native call follow RevertStep; the cache is untouched |
| ClientInfo.RpcClientInfo.DisposeScope | src/CSharpTest.Net.RpcLibrary/Interop/RpcClientInfo.cs:237-256 | follows DisposeScopeStep |
| ClientInfo.RpcClientInfo.Dispose | src/CSharpTest.Net.RpcLibrary/Interop/RpcClientInfo.cs:107-115 | reverts any impersonation, as RevertStep describes |
| ClientInfo.CachedCallInfo | src/CSharpTest.Net.RpcLibrary/Interop/RpcClientInfo.cs:151-153 | once a query series has succeeded, a second GetCallInfo returns the same record and asks nothing, whatever the runtime now answers; after a failed one it asks again |
| ClientApi.Anonymous | src/CSharpTest.Net.RpcLibrary/RpcClientApi.cs:60-63 | the Anonymous credential is the user ANONYMOUS LOGON of the domain NT_AUTHORITY with an empty password |
| ClientApi.AnonymousTest | src/CSharpTest.Net.RpcLibrary/RpcClientApi.cs:104 | the isAnon test accepts Anonymous, rejects null, and accepts a credential exactly when its user name and domain are Anonymous's |
| ClientApi.DefaultAuthSettings | src/CSharpTest.Net.RpcLibrary/RpcClientApi.cs:99-113 | PKT_PRIVACY with GSS_NEGOTIATE then WINNT and the given credential, unless the credential has Anonymous's user name and domain; then DEFAULT with NONE and no credential |
| ClientApi.SelfIsNotRewritten | src/CSharpTest.Net.RpcLibrary/RpcClientApi.cs:104-110 | a null credential (Self) keeps PKT_PRIVACY and both authentication types |
| ClientApi.AnonymousPasswordIgnored | src/CSharpTest.Net.RpcLibrary/RpcClientApi.cs:104 | any password of the Anonymous user gets the same settings, and the credential is dropped |
| ClientApi.IdentityArgument | src/CSharpTest.Net.RpcLibrary/RpcClientApi.cs:231-242 | no identity for a null credential; otherwise one built from its user name, domain and password |
| ClientApi.Rejected | src/CSharpTest.Net.RpcLibrary/RpcClientApi.cs:236-247 | nothing is rejected iff the runtime accepted every call |
| ClientApi.RejectedAppend | src/CSharpTest.Net.RpcLibrary/RpcClientApi.cs:233-248 | one more call adds its type to the rejected ones exactly when the runtime refuses it |
| ClientApi.BindingSetAuthInfo | src/CSharpTest.Net.RpcLibrary/RpcClientApi.cs:228-250 | one call per authentication type, in order, all with the same binding, principal, level, identity and AuthzSvc 0; refusals are collected, never raised |
| ClientApi.Zeros | src/CSharpTest.Net.RpcLibrary/RpcClientApi.cs:328 | a new byte array of n zero bytes |
| ClientApi.HandleReply | src/CSharpTest.Net.RpcLibrary/RpcClientApi.cs:291-335 | a structured exception becomes an RpcException, unless its code is 0; a non-zero result raises before anything is copied or freed; a negative size fails the allocation; otherwise exactly responseSize bytes, copied only from a non-null pointer, and the response is freed |
| ClientApi.PointerToInt32 | src/CSharpTest.Net.RpcLibrary/RpcClientApi.cs:301-305 | in a 32-bit process, IntPtr.ToInt32 and new IntPtr(int) are inverse on every address |
| ClientApi.FromInt32 | src/CSharpTest.Net.RpcLibrary/RpcClientApi.cs:321 | new IntPtr(int) gives an address below 2^32 with the same 32 bits |
| ClientApi.FrameSlotPointer | src/CSharpTest.Net.RpcLibrary/RpcClientApi.cs:304-305 | ToInt32 of the frame plus 4k, with int wrap-around, read back as a pointer, is the address of slot k |
| ClientApi.Frame32 | src/CSharpTest.Net.RpcLibrary/RpcClientApi.cs:299-308 | slot 0 is the binding, slot 1 the input length, slot 2 the input buffer, slots 3 and 4 point at slots 6 and 8, and every other slot is 0 |
| ClientApi.CallX86 | src/CSharpTest.Net.RpcLibrary/RpcClientApi.cs:299-322 | NdrClientCall2x86 receives the frame Frame32 describes (binding, input length and input buffer in slots 0-2, the out addresses in slots 3 and 4); what the runtime writes through slots 3 and 4 is what is read back from slots 6 and 8: the response size and pointer |
| ClientApi.GetOrCreateStub | src/CSharpTest.Net.RpcLibrary/RpcClientApi.cs:270-277 | the stub descriptor already pinned on the handle is reused with no new pins; otherwise the client interface, the three client-side pins and the descriptor are appended; either way the result is the first stub descriptor in the list |
| ClientApi.InvokeRpc | src/CSharpTest.Net.RpcLibrary/RpcClientApi.cs:267-336 | the result is HandleReply's for either pointer width; NdrClientCall2 gets the first stub descriptor on the handle (an existing one, or the one just created), the pinned FUNC_FORMAT, the binding, the input length and the input buffer, which on x86 are the frame's slots 0-2; at most the five stub pins are added |
| ClientApi.RpcClientApi.constructor | src/CSharpTest.Net.RpcLibrary/RpcClientApi.cs:39-48 | a connected client on the given binding, not yet authenticated, with nothing pinned |
| ClientApi.RpcClientApi.AuthenticateAs | src/CSharpTest.Net.RpcLibrary/RpcClientApi.cs:122-129 | only the first call reaches the runtime, with BindingSetAuthInfo's calls; afterwards the client is authenticated |
| ClientApi.RpcClientApi.AuthenticateAsPrincipal | src/CSharpTest.Net.RpcLibrary/RpcClientApi.cs:99-113 | the first call authenticates with DefaultAuthSettings of the credential |
| ClientApi.RpcClientApi.AuthenticateAsCredentials | src/CSharpTest.Net.RpcLibrary/RpcClientApi.cs:91-94 | the same, with no server principal name |
| ClientApi.RpcClientApi.Execute | src/CSharpTest.Net.RpcLibrary/RpcClientApi.cs:134-143 | an unauthenticated client first makes exactly one SetAuthInfo call, with DEFAULT, NONE and no identity; the response is HandleReply's; the stub descriptor is created once |
| ClientApi.RpcClientApi.Dispose | src/CSharpTest.Net.RpcLibrary/RpcClientApi.cs:52-56 | a failed RpcBindingFree of a live binding raises RpcException with that status and keeps every pin; success releases the binding and then every pin, last first |
| ClientApi.ExecuteTwice | src/CSharpTest.Net.RpcLibrary/RpcClientApi.cs:270-277 | two calls with the same reply give the same result, and the stub pins are made at most once |
| ServerApi.ServerUseProtseqEp | src/CSharpTest.Net.RpcLibrary/RpcServerApi.cs:239-247 | true on OK, false on a duplicate endpoint, and an RpcException with the status for anything else |
| ServerApi.ServerRegisterAuthInfo | src/CSharpTest.Net.RpcLibrary/RpcServerApi.cs:291-301 | AddAuthentication reports true iff the runtime accepted the registration, and never raises |
| ServerApi.ListenArguments | src/CSharpTest.Net.RpcLibrary/RpcServerApi.cs:311-314 | RpcServerListen gets one minimum thread, the given call limit and DontWait |
| ServerApi.ServerListen | src/CSharpTest.Net.RpcLibrary/RpcServerApi.cs:311-321 | succeeds iff the runtime answers OK or ALREADY_LISTENING; otherwise raises that status |
| ServerApi.ServerStopListening | src/CSharpTest.Net.RpcLibrary/RpcServerApi.cs:332-345 | both stop and wait calls are made, in order, and the procedure returns normally whatever they answer |
| ServerApi.RegistrationCall | src/CSharpTest.Net.RpcLibrary/RpcServerApi.cs:264-280 | plain RegisterIf iff anonymous TCP is off and the request limit is negative; RegisterIf2 otherwise, with 255 for a non-positive call limit, 80 KiB for a non-positive size, and the no-auth flag and accept-all callback iff anonymous TCP is on |
| ServerApi.RegistrationLimitsPositive | src/CSharpTest.Net.RpcLibrary/RpcServerApi.cs:278-280 | RegisterIf2 never receives a non-positive call limit or request size |
| ServerApi.RegistrationChoice | src/CSharpTest.Net.RpcLibrary/RpcServerApi.cs:55-71 | the default constructor uses RegisterIf; anonymous TCP always uses RegisterIf2 with the callback; a request limit of 0 gets 80 KiB through RegisterIf2 |
| ServerApi.ServerRegisterInterface | src/CSharpTest.Net.RpcLibrary/RpcServerApi.cs:262-283 | the server interface is built on the handle, registered as RegistrationCall says, and becomes the handle only if registration succeeded |
| ServerApi.Execute | src/CSharpTest.Net.RpcLibrary/RpcServerApi.cs:171-179 | null without a subscriber; otherwise the subscriber's reply |
| ServerApi.EntryPoint | src/CSharpTest.Net.RpcLibrary/RpcServerApi.cs:131-166 | OK iff the handler returned bytes and the allocation succeeded, and then exactly those bytes in the new block; NOT_LISTENING iff it returned null; E_FAIL otherwise, with nothing handed back |
| ServerApi.EntryPointHeap | src/CSharpTest.Net.RpcLibrary/RpcServerApi.cs:150-161 | a successful dispatch makes exactly one heap call, a LocalAlloc of the output size, and frees nothing; a null reply makes no heap call |
| ServerApi.Subscribe | src/CSharpTest.Net.RpcLibrary/RpcServerApi.cs:186-193 | a second subscription raises InvalidOperationException; otherwise the slot takes the value |
| ServerApi.Unsubscribe | src/CSharpTest.Net.RpcLibrary/RpcServerApi.cs:194-206 | null raises ArgumentNullException; a different delegate raises InvalidOperationException; otherwise the slot is cleared |
| ServerApi.SubscribeUnsubscribe | src/CSharpTest.Net.RpcLibrary/RpcServerApi.cs:184-206 | add then remove of the same handler leaves the slot empty; nobody else can remove it, and nobody can add a second one |
| ServerApi.RpcServerApi.constructor | src/CSharpTest.Net.RpcLibrary/RpcServerApi.cs:64-66 | the fields are initialised: not listening, no handler, an empty server handle |
| ServerApi.RpcServerApi.Register | src/CSharpTest.Net.RpcLibrary/RpcServerApi.cs:68-71 | Guid.Empty skips registration entirely; any other iid keeps the earlier pins, appends the eight blocks of ServerInfo.Create with their contents, makes RegistrationCall's call, and sets the handle to the server interface iff the status is OK, leaving it unchanged otherwise |
| ServerApi.RpcServerApi.AddProtocol | src/CSharpTest.Net.RpcLibrary/RpcServerApi.cs:87-91 | the call limit becomes the larger of the two, even when the endpoint is refused, and the result is ServerUseProtseqEp's |
| ServerApi.RpcServerApi.StartListening | src/CSharpTest.Net.RpcLibrary/RpcServerApi.cs:110-117 | a no-op while listening; otherwise the counter moves as IncrementStep says with ServerListen as the first user's callback, RpcServerListen is called exactly when that callback runs and then receives the instance's current call limit (lines 115 and 314), and the flag is set iff Increment returns |
| ServerApi.RpcServerApi.StopListening | src/CSharpTest.Net.RpcLibrary/RpcServerApi.cs:122-129 | a no-op unless listening; otherwise the flag is cleared first and the counter moves as DecrementStep says with ServerStopListening as the last user's callback |
| ServerApi.RpcServerApi.AddOnExecute | src/CSharpTest.Net.RpcLibrary/RpcServerApi.cs:186-193 | the handler slot changes as Subscribe says, or InvalidOperationException leaves it |
| ServerApi.RpcServerApi.RemoveOnExecute | src/CSharpTest.Net.RpcLibrary/RpcServerApi.cs:194-206 | the handler slot changes as Unsubscribe says, or its exception leaves it |
| ServerApi.RpcServerApi.Dispose | src/CSharpTest.Net.RpcLibrary/RpcServerApi.cs:77-82 | the handler is dropped and listening stops; if StopListening raises, the handle is kept; otherwise the handle is disposed, ignoring RpcServerUnregisterIf's status |
| ServerApi.NewRpcServerApi | src/CSharpTest.Net.RpcLibrary/RpcServerApi.cs:62-72 | a new server that is not listening and has no handler, with the interface registered iff the iid is not Guid.Empty; then the handle holds exactly the eight blocks of ServerInfo.Create, and it is the server interface's address after a successful registration and 0 otherwise |
| ListenerSystem.CountListeningUpdate | src/CSharpTest.Net.RpcLibrary/RpcServerApi.cs:110-129 | setting one instance's flag changes the number of listening instances by exactly that flag |
| ListenerSystem.FreshProcess | src/CSharpTest.Net.RpcLibrary/Interop/UsageCounter.cs:29-34 | n instances on a fresh counter: each listening instance is one user, and nothing listens |
| ListenerSystem.Start | src/CSharpTest.Net.RpcLibrary/RpcServerApi.cs:110-117 | as written: a listening instance is unchanged; otherwise the count moves exactly as the unfixed Increment says |
| ListenerSystem.StartMatchesInstance | src/CSharpTest.Net.RpcLibrary/RpcServerApi.cs:110-117 | Start is what ServerApi.RpcServerApi.StartListening does: from the same counter and flag, the method ends with Start's counter and flag, and the process serves iff it did or RpcServerListen succeeded |
| ListenerSystem.Stop | src/CSharpTest.Net.RpcLibrary/RpcServerApi.cs:122-129 | the instance ends up not listening, and a stopped one is unchanged |
| ListenerSystem.StopPreservesConsistent | src/CSharpTest.Net.RpcLibrary/RpcServerApi.cs:122-129 | stopping keeps one user per listening instance, with the process listening iff some instance does |
| ListenerSystem.StartLeaksUser | src/CSharpTest.Net.RpcLibrary/Interop/UsageCounter.cs:52-56 | as written, a refused first RpcServerListen leaves one user counted for no listening instance; a second instance then believes it listens while the process does not |
| ListenerSystem.IncrementStepFixed | src/CSharpTest.Net.RpcLibrary/Interop/UsageCounter.cs:37-62 | same callback and outcome as Increment, but a raised call never changes the count |
| ListenerSystem.StartFixed | src/CSharpTest.Net.RpcLibrary/RpcServerApi.cs:110-117 | StartListening over the fixed Increment; a listening instance is unchanged |
| ListenerSystem.StartFixedPreservesConsistent | src/CSharpTest.Net.RpcLibrary/RpcServerApi.cs:110-117 | with the fixed Increment, starting keeps the invariant whatever RpcServerListen answers, and the instance listens iff it did, or the listen succeeded, or another instance already listened |
| ListenerSystem.RunFixed | src/CSharpTest.Net.RpcLibrary/RpcServerApi.cs:110-129 | any series of StartListening and StopListening calls keeps the number of instances |
| ListenerSystem.RunFixedConsistent | src/CSharpTest.Net.RpcLibrary/RpcServerApi.cs:110-129 | after any series of starts and stops, the process listens exactly while some instance does |

## Left out

- Native calls (Rpcrt4, Kernel32) are not executed. Their status codes, filled-in records and replies are parameters, and the model proves what the library does with every possible answer.
- GCHandle pinning and `Marshal` copies are not modelled. A pinned block is an entry of the handle's list with a fresh address, and a copy is a sequence slice.
- The `RpcHandle` finalizer and `GC.SuppressFinalize` are left out: the model has no garbage collector.
- The `Log` calls and exception message text are left out. They do not change behaviour.
- Concurrency is left out: the `Mutex` of `UsageCounter`, `lock (this)` on `OnExecute`, and the 120-second timeouts. The model is sequential. `lockAcquired` says whether the mutex was taken in time. Because the model is sequential, a wait on an empty semaphore times out.
- `RpcClientInfo.ClientUser` and the `WindowsIdentity` it caches are left out, because they need the Windows security subsystem. Dispose models only the revert.
- `RpcClientApi`'s `StringBindingCompose` and `BindingFromStringBinding` are left out. The constructor receives the binding the runtime returns, and `Protocol` is a plain getter.
- RPC_SERVER_INTERFACE.cs is not part of this model. The server interface is reduced to the interface id and the MIDL_SERVER_INFO address it is given. Any block its constructor pins on the handle is not modelled, so the counts of pinned blocks (eight for `ServerInfo.Create`, `ServerApi.ServerRegisterInterface` and `ServerApi.NewRpcServerApi`, seven for `ServerInfo.Configure`) and the entry positions cover only the blocks MIDL_SERVER_INFO pins itself.
- ServerInfo.Create: states exactly eight new entries; the source can pin more, inside the RPC_SERVER_INTERFACE constructor, which is not part of this model.
- ServerInfo.Configure: states exactly seven entries after the info block and names the server interface entry by its position; blocks pinned by the RPC_SERVER_INTERFACE constructor are not counted.
- ServerInfo.PinInterface: the interface entry holds only the interface id and the info address; whatever the RPC_SERVER_INTERFACE constructor pins before it returns is not modelled.
- `Marshal.SizeOf` of the structs is not derived from a byte layout. `Structs.ClientInterfaceSize` gives the two sizes as constants.
- The static `hAuthCall` function pointer and `AuthCall`, which always answers RPC_S_OK, are left out. Its address is the parameter `authCallback`.
- `RpcEntryPoint` creates and disposes an `RpcClientInfo` and copies the input from native memory. The model leaves both out, and the handler sees the input bytes directly.
- `ClientApi.CallX86`: the model does not cover `IntPtr.ToInt32` overflowing in a 64-bit process. Only the 32-bit path goes through `ToInt32`, and there every address fits in 32 bits.
- `ClientApi.InvokeRpc`: the pinned input buffer and the 32-bit frame are temporary `Ptr<T>` blocks disposed at the end of the call. The model does not put them on the handle's list.
- ClientApi.HandleReply: the result word of NdrClientCall2 is an IntPtr that `RpcException.Assert(result.ToInt32())` narrows. The model takes it as a 32-bit status already, so it does not capture ToInt32 overflowing on a 64-bit process.
- `ClientInfo.Runtime`: RpcServerInqCallAttributes writes into caller-owned 1024-byte buffers for the address and the principal name. The model gives the runtime's answer as unbounded sequences.

## Findings

| source | as written | input that shows it | evidently intended | confidence | as-written member | corrected member |
|---|---|---|---|---|---|---|
| src/CSharpTest.Net.RpcLibrary/Interop/UsageCounter.cs:52-56 | `Increment` takes the new user's unit before it calls `beginUsage`. When `beginUsage` (here `ServerListen`, `RpcServerApi.cs:115`) raises, the unit is not given back, and `StartListening` leaves `_isListening` false. | Two server instances on a fresh counter. The first `StartListening` meets `RpcServerListen` answering RPC_S_NO_PROTSEQS_REGISTERED. The second `StartListening` then sees a counter that already holds one user: it does not call `RpcServerListen` and sets its flag, while the process is not listening. | A failed first `Increment` gives its unit back. The counter then holds exactly one user per listening instance, and the process listens exactly while some instance does. | not executed | ListenerSystem.StartLeaksUser | ListenerSystem.RunFixedConsistent |
