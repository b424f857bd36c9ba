/**
 * MIDL_STUB_DESC: the stub descriptor handed to the NDR engine. Its fields
 * are constants and arguments, except for the blocks it pins on the
 * owning handle: on the client side an auto-bind slot, the type format
 * table and the comm/fault offsets; on the server side only the table.
 */
module StubDescriptors {
  import opened RpcTypes
  import opened Structs
  import opened Handles
  import RpcApiTables

  /** The NDR library version the descriptor declares. */
  const NDR_VERSION: uint32 := 0x50002
  /** The MIDL compiler version the descriptor declares. */
  const MIDL_VERSION: int32 := 0x70001f4

  /** The comm/fault offsets a client stub pins: no offsets, -1 and -1. */
  const NoCommFaultOffsets: CommFaultOffsets := CommFaultOffsets(-1, -1)

  /** The fixed scalars every descriptor carries. */
  predicate FixedConstants(d: MidlStubDesc)
  {
    d.fCheckBounds == 1 && d.version == NDR_VERSION && d.midlVersion == MIDL_VERSION && d.mFlags == 1
  }

  /** The private routine tables, the malloc/free struct and the proxy info are all null. */
  predicate PrivateRoutinesZero(d: MidlStubDesc)
  {
    d.apfnNdrRundownRoutines == 0 && d.aGenericBindingRoutinePairs == 0 && d.apfnExprEval == 0 &&
    d.aXmitQuintuple == 0 && d.pMallocFreeStruct == 0 && d.aUserMarshalQuadruple == 0 &&
    d.notifyRoutineTable == 0 && d.csRoutineTables == 0 && d.proxyServerInfo == 0 && d.pExprInfo == 0
  }

  /**
   * The descriptor for a given interface, allocator thunks and the
   * addresses of the blocks pinned for it (0 where nothing is pinned).
   */
  function StubDescRecord(interfaceInfo: Address, api: RpcApiTables.RpcApi, autoBind: Address, formatTypes: Address, commFault: Address): (d: MidlStubDesc)
    ensures FixedConstants(d) && PrivateRoutinesZero(d)
    ensures d.rpcInterfaceInformation == interfaceInfo && d.pfnAllocate == api.allocPtr && d.pfnFree == api.freePtr
    ensures d.pAutoBindHandle == autoBind && d.pFormatTypes == formatTypes && d.commFaultOffsets == commFault
  {
    MidlStubDesc(interfaceInfo, api.allocPtr, api.freePtr, autoBind, 0, 0, 0, 0, formatTypes, 1, NDR_VERSION, 0,
                 MIDL_VERSION, commFault, 0, 0, 1, 0, 0, 0)
  }

  /** Two descriptors built from the same arguments and pins are equal, and differ when the pins differ. */
  lemma StubDescRecordInjective(i1: Address, i2: Address, api: RpcApiTables.RpcApi, a1: Address, a2: Address, f1: Address, f2: Address, c1: Address, c2: Address)
    ensures StubDescRecord(i1, api, a1, f1, c1) == StubDescRecord(i2, api, a2, f2, c2) <==> i1 == i2 && a1 == a2 && f1 == f2 && c1 == c2
  {
  }

  /**
   * new MIDL_STUB_DESC(handle, interfaceInfo, formatTypes, serverSide).
   * The pins are made in field order: pAutoBindHandle, pFormatTypes, CommFaultOffsets.
   */
  method NewMidlStubDesc(h: RpcHandle, api: RpcApiTables.RpcApi, interfaceInfo: Address, formatTypes: seq<uint8>, serverSide: bool)
    returns (desc: MidlStubDesc)
    requires h.Valid()
    modifies h
    ensures h.Valid() && h.handle == old(h.handle) && h.released == old(h.released)
    ensures desc == StubDescRecord(interfaceInfo, api, desc.pAutoBindHandle, desc.pFormatTypes, desc.commFaultOffsets)
    ensures desc.pFormatTypes != 0
    ensures serverSide ==> desc.pAutoBindHandle == 0 && desc.commFaultOffsets == 0
    ensures serverSide ==> h.pinned == old(h.pinned) + [PtrSlot(desc.pFormatTypes, Bytes(formatTypes))]
    ensures !serverSide ==> desc.pAutoBindHandle != 0 && desc.commFaultOffsets != 0
    ensures !serverSide ==> h.pinned == old(h.pinned) + [PtrSlot(desc.pAutoBindHandle, IntPtrValue(0)),
                                                         PtrSlot(desc.pFormatTypes, Bytes(formatTypes)),
                                                         PtrSlot(desc.commFaultOffsets, CommFault(NoCommFaultOffsets))]
  {
    var autoBind: Address := 0;
    if !serverSide {
      autoBind := h.Pin(IntPtrValue(0));
    }
    var pFormatTypes := h.Pin(Bytes(formatTypes));
    var commFault: Address := 0;
    if !serverSide {
      commFault := h.Pin(CommFault(NoCommFaultOffsets));
    }
    desc := StubDescRecord(interfaceInfo, api, autoBind, pFormatTypes, commFault);
  }
}
