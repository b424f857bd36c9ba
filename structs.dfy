/**
 * The native control blocks the core builds, as records, with the pure
 * constructors of RPC_VERSION, RPC_CLIENT_INTERFACE and
 * SEC_WINNT_AUTH_IDENTITY. Pointer-valued fields are Addresses; the
 * constructors that pin memory live in StubDescriptors and ServerInfo.
 */
module Structs {
  import opened RpcTypes

  // ---------------------------------------------------------------- RPC_VERSION

  datatype RpcVersion = RpcVersion(majorVersion: uint16, minorVersion: uint16)

  /** RPC_VERSION.INTERFACE_VERSION, 1.0 */
  const INTERFACE_VERSION: RpcVersion := RpcVersion(1, 0)
  /** RPC_VERSION.SYNTAX_VERSION, 2.0 */
  const SYNTAX_VERSION: RpcVersion := RpcVersion(2, 0)

  datatype SyntaxIdentifier = SyntaxIdentifier(syntaxGuid: Guid, syntaxVersion: RpcVersion)

  /**
   * The NDR transfer syntax 8A885D04-1CEB-11C9-9FE8-08002B104860 (the NDR
   * transfer syntax of DCE 1.1 RPC; section 2.2.4.12 of [MS-RPCE]).
   */
  const IID_SYNTAX: Guid := Guid(0x8A88_5D04, 0x1CEB, 0x11C9, [0x9F, 0xE8, 0x08, 0x00, 0x2B, 0x10, 0x48, 0x60])

  /**
   * Marshal.SizeOf(typeof(RPC_CLIENT_INTERFACE)) as the runtime lays the
   * struct out: 0x60 bytes with 8-byte pointers, 0x44 with 4-byte ones.
   */
  function ClientInterfaceSize(pointerSize: nat): nat
    requires pointerSize == 4 || pointerSize == 8
  {
    if pointerSize == 8 then 0x60 else 0x44
  }

  // ---------------------------------------------------------------- RPC_CLIENT_INTERFACE

  datatype RpcClientInterface = RpcClientInterface(
    length: uint32,
    interfaceId: SyntaxIdentifier,
    transferSyntax: SyntaxIdentifier,
    dispatchTable: Address,
    rpcProtseqEndpointCount: uint32,
    rpcProtseqEndpoint: Address,
    reserved: Address,
    interpreterInfo: Address,
    flags: uint32)

  /** new RPC_CLIENT_INTERFACE(iid) in a process whose pointers are pointerSize bytes wide. */
  function NewRpcClientInterface(iid: Guid, pointerSize: nat): (ci: RpcClientInterface)
    requires pointerSize == 4 || pointerSize == 8
    ensures ci.interfaceId == SyntaxIdentifier(iid, RpcVersion(1, 0))
    ensures ci.transferSyntax == SyntaxIdentifier(IID_SYNTAX, RpcVersion(2, 0))
    ensures ci.length == if pointerSize == 8 then 96 else 68
    ensures ci.dispatchTable == 0 && ci.rpcProtseqEndpoint == 0 && ci.reserved == 0 && ci.interpreterInfo == 0
    ensures ci.rpcProtseqEndpointCount == 0 && ci.flags == 0
  {
    RpcClientInterface(
      ClientInterfaceSize(pointerSize),
      SyntaxIdentifier(iid, INTERFACE_VERSION),
      SyntaxIdentifier(IID_SYNTAX, SYNTAX_VERSION),
      0, 0, 0, 0, 0, 0)
  }

  /** The transfer syntax does not depend on the interface id, and the record is determined by the iid alone. */
  lemma ClientInterfaceDependsOnlyOnIid(iid1: Guid, iid2: Guid, pointerSize: nat)
    requires pointerSize == 4 || pointerSize == 8
    ensures NewRpcClientInterface(iid1, pointerSize).transferSyntax == NewRpcClientInterface(iid2, pointerSize).transferSyntax
    ensures NewRpcClientInterface(iid1, pointerSize) == NewRpcClientInterface(iid2, pointerSize) <==> iid1 == iid2
  {
  }

  // ---------------------------------------------------------------- MIDL_STUB_DESC and friends

  /** COMM_FAULT_OFFSETS */
  datatype CommFaultOffsets = CommFaultOffsets(commOffset: int, faultOffset: int)

  /** MIDL_STUB_DESC, every field in declaration order. */
  datatype MidlStubDesc = MidlStubDesc(
    rpcInterfaceInformation: Address,
    pfnAllocate: Address,
    pfnFree: Address,
    pAutoBindHandle: Address,
    apfnNdrRundownRoutines: Address,
    aGenericBindingRoutinePairs: Address,
    apfnExprEval: Address,
    aXmitQuintuple: Address,
    pFormatTypes: Address,
    fCheckBounds: int32,
    version: uint32,
    pMallocFreeStruct: Address,
    midlVersion: int32,
    commFaultOffsets: Address,
    aUserMarshalQuadruple: Address,
    notifyRoutineTable: Address,
    mFlags: Address,
    csRoutineTables: Address,
    proxyServerInfo: Address,
    pExprInfo: Address)

  /** MIDL_SERVER_INFO, every field in declaration order. */
  datatype MidlServerInfo = MidlServerInfo(
    pStubDesc: Address,
    dispatchTable: Address,
    procString: Address,
    fmtStringOffset: Address,
    thunkTable: Address,
    pTransferSyntax: Address,
    nCount: Address,
    pSyntaxInfo: Address)

  /** new MIDL_SERVER_INFO(): every field zero. */
  const EmptyServerInfo: MidlServerInfo := MidlServerInfo(0, 0, 0, 0, 0, 0, 0, 0)

  /**
   * RPC_SERVER_INTERFACE, reduced to what this library passes its
   * constructor: the interface id and the address of the MIDL_SERVER_INFO block.
   */
  datatype RpcServerInterface = RpcServerInterface(iid: Guid, interpreterInfo: Address)

  // ---------------------------------------------------------------- SEC_WINNT_AUTH_IDENTITY

  /** System.Net.NetworkCredential, as the three strings the core reads. */
  datatype NetworkCredential = NetworkCredential(userName: string, password: string, domain: string)

  /** SEC_WINNT_AUTH_IDENTITY_UNICODE */
  const SEC_WINNT_AUTH_IDENTITY_UNICODE: uint32 := 0x2

  datatype SecWinntAuthIdentity = SecWinntAuthIdentity(
    user: string, userLength: nat,
    domain: string, domainLength: nat,
    password: string, passwordLength: nat,
    flags: uint32)

  /** The identity is well formed: each length is the length of its string, and the strings are Unicode. */
  predicate ConsistentIdentity(id: SecWinntAuthIdentity)
  {
    id.userLength == |id.user| && id.domainLength == |id.domain| &&
    id.passwordLength == |id.password| && id.flags == SEC_WINNT_AUTH_IDENTITY_UNICODE
  }

  /** new SEC_WINNT_AUTH_IDENTITY(domain, user, password) */
  function NewAuthIdentity(domain: string, user: string, password: string): (id: SecWinntAuthIdentity)
    ensures ConsistentIdentity(id)
    ensures id.user == user && id.domain == domain && id.password == password
  {
    SecWinntAuthIdentity(user, |user|, domain, |domain|, password, |password|, SEC_WINNT_AUTH_IDENTITY_UNICODE)
  }

  /** new SEC_WINNT_AUTH_IDENTITY(cred): the credential's Domain, UserName and Password, in those slots. */
  function AuthIdentityOf(cred: NetworkCredential): (id: SecWinntAuthIdentity)
    ensures ConsistentIdentity(id)
    ensures id.domain == cred.domain && id.user == cred.userName && id.password == cred.password
  {
    NewAuthIdentity(cred.domain, cred.userName, cred.password)
  }

  // ---------------------------------------------------------------- RPC_CALL_ATTRIBUTES_V2

  /** RPC_CALL_ATTRIBUTES_FLAGS */
  const RPC_QUERY_CLIENT_PRINCIPAL_NAME: int := 0x04
  const RPC_QUERY_CALL_LOCAL_ADDRESS: int := 0x08
  const RPC_QUERY_CLIENT_PID: int := 0x10
  const RPC_QUERY_IS_CLIENT_LOCAL: int := 0x20
  const RPC_QUERY_NO_AUTH_REQUIRED: int := 0x40

  /**
   * RPC_CALL_ATTRIBUTES_V2, with the fields the core reads. The two buffers
   * the core hands the runtime (client principal name, call local address)
   * are represented by what the runtime writes into them.
   */
  datatype CallAttributes = CallAttributes(
    version: uint32,
    flags: int,
    authenticationLevel: uint32,
    authenticationService: uint32,
    protocolSequence: uint32,
    isClientLocal: uint32,
    clientPid: Address,
    clientPrincipalName: string,
    callLocalAddress: seq<uint8>)

  /** new RPC_CALL_ATTRIBUTES_V2(): every field zero. */
  const EmptyCallAttributes: CallAttributes := CallAttributes(0, 0, 0, 0, 0, 0, 0, "", [])
}
