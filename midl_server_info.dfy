/**
 * MIDL_SERVER_INFO.Create/Configure: pins the server info block first,
 * then the server interface, the server-side stub descriptor, the entry
 * point's function pointer, the one-entry dispatch table, the procedure
 * format string and the format-string offset table, and finally writes the
 * configured record back into the first block.
 */
module ServerInfo {
  import opened RpcTypes
  import opened Structs
  import opened Handles
  import RpcApiTables
  import StubDescriptors

  /** The configured MIDL_SERVER_INFO: the four public pointers set, the four private ones null. */
  function ServerInfoRecord(stubDesc: Address, dispatchTable: Address, procString: Address, fmtStringOffset: Address): (info: MidlServerInfo)
    ensures info.pStubDesc == stubDesc && info.dispatchTable == dispatchTable
    ensures info.procString == procString && info.fmtStringOffset == fmtStringOffset
    ensures info.thunkTable == 0 && info.pTransferSyntax == 0 && info.nCount == 0 && info.pSyntaxInfo == 0
  {
    MidlServerInfo(stubDesc, dispatchTable, procString, fmtStringOffset, 0, 0, 0, 0)
  }

  /**
   * The eight entries Create leaves on the handle, given their addresses,
   * in acquisition order.
   */
  predicate CreatedBlocks(p: seq<Slot>, api: RpcApiTables.RpcApi, iid: Guid, formatTypes: seq<uint8>, formatProc: seq<uint8>, fnExecute: nat)
  {
    |p| == 8 &&
    p[0] == PtrSlot(p[0].addr, ServerInfo(ServerInfoRecord(p[3].addr, p[5].addr, p[6].addr, p[7].addr))) &&
    p[1] == PtrSlot(p[1].addr, ServerInterface(RpcServerInterface(iid, p[0].addr))) &&
    p[2] == PtrSlot(p[2].addr, Bytes(formatTypes)) &&
    p[3] == PtrSlot(p[3].addr, StubDesc(StubDescriptors.StubDescRecord(p[1].addr, api, 0, p[2].addr, 0))) &&
    p[4] == FunctionSlot(p[4].addr, RpcExecuteDelegate, fnExecute) &&
    p[5] == PtrSlot(p[5].addr, IntPtrValue(p[4].addr)) &&
    p[6] == PtrSlot(p[6].addr, Bytes(formatProc)) &&
    p[7] == PtrSlot(p[7].addr, Ints([0]))
  }

  /**
   * MIDL_SERVER_INFO.Create(handle, iid, formatTypes, formatProc, fnExecute):
   * returns the pinned server interface.
   */
  method Create(h: RpcHandle, api: RpcApiTables.RpcApi, iid: Guid, formatTypes: seq<uint8>, formatProc: seq<uint8>, fnExecute: nat)
    returns (svrIface: Slot)
    requires h.Valid()
    modifies h
    ensures h.Valid() && h.handle == old(h.handle) && h.released == old(h.released)
    ensures |h.pinned| == |old(h.pinned)| + 8 && h.pinned[..|old(h.pinned)|] == old(h.pinned)
    ensures CreatedBlocks(h.pinned[|old(h.pinned)|..], api, iid, formatTypes, formatProc, fnExecute)
    ensures svrIface == h.pinned[|old(h.pinned)| + 1]
  {
    ghost var before := h.pinned;
    var me := h.CreatePtr(ServerInfo(EmptyServerInfo));
    ghost var created;
    svrIface, created := Configure(h, api, me, iid, formatTypes, formatProc, fnExecute);
    assert h.pinned == before + [h.pinned[|before|]] + created;
    assert h.pinned[|before|..] == [h.pinned[|before|]] + created;
  }

  /**
   * Configure: pins the seven blocks after the server info block me, then
   * writes the configured record into me. created is what was appended.
   */
  method Configure(h: RpcHandle, api: RpcApiTables.RpcApi, me: Slot, iid: Guid, formatTypes: seq<uint8>, formatProc: seq<uint8>, fnExecute: nat)
    returns (svrIface: Slot, ghost created: seq<Slot>)
    requires h.Valid() && |h.pinned| > 0 && me == h.pinned[|h.pinned| - 1] && me.PtrSlot?
    modifies h
    ensures h.Valid() && h.handle == old(h.handle) && h.released == old(h.released)
    ensures |created| == 7 && svrIface == created[0]
    ensures h.pinned == old(h.pinned)[|old(h.pinned)| - 1 := PtrSlot(me.addr, ServerInfo(ServerInfoRecord(created[2].addr, created[4].addr, created[5].addr, created[6].addr)))] + created
    ensures created[0] == PtrSlot(created[0].addr, ServerInterface(RpcServerInterface(iid, me.addr)))
    ensures created[1] == PtrSlot(created[1].addr, Bytes(formatTypes))
    ensures created[2] == PtrSlot(created[2].addr, StubDesc(StubDescriptors.StubDescRecord(created[0].addr, api, 0, created[1].addr, 0)))
    ensures created[3] == FunctionSlot(created[3].addr, RpcExecuteDelegate, fnExecute)
    ensures created[4] == PtrSlot(created[4].addr, IntPtrValue(created[3].addr))
    ensures created[5] == PtrSlot(created[5].addr, Bytes(formatProc))
    ensures created[6] == PtrSlot(created[6].addr, Ints([0]))
  {
    ghost var before := h.pinned;
    var stub;
    ghost var first, second;
    svrIface, stub, first := PinInterface(h, api, me, iid, formatTypes);
    var dispatchTable, procString, fmtStringOffset;
    dispatchTable, procString, fmtStringOffset, second := PinDispatch(h, formatProc, fnExecute);
    created := first + second;
    assert created[..3] == first && created[3..] == second;
    assert h.pinned == before + created;
    var info := ServerInfoRecord(stub.addr, dispatchTable, procString, fmtStringOffset);
    ghost var all := h.pinned;
    assert all[|before| - 1] == me;
    h.WriteBack(me.addr, ServerInfo(info));
    assert h.pinned == all[|before| - 1 := PtrSlot(me.addr, ServerInfo(info))];
    UpdateBeforeAppended(before, created, PtrSlot(me.addr, ServerInfo(info)));
  }

  /** Overwriting an entry of the prefix commutes with appending. */
  lemma UpdateBeforeAppended(before: seq<Slot>, created: seq<Slot>, x: Slot)
    requires |before| > 0
    ensures (before + created)[|before| - 1 := x] == before[|before| - 1 := x] + created
  {
  }

  /** The first half of Configure: the server interface and the server-side stub descriptor. */
  method PinInterface(h: RpcHandle, api: RpcApiTables.RpcApi, me: Slot, iid: Guid, formatTypes: seq<uint8>)
    returns (svrIface: Slot, stub: Slot, ghost created: seq<Slot>)
    requires h.Valid()
    modifies h
    ensures h.Valid() && h.handle == old(h.handle) && h.released == old(h.released)
    ensures h.pinned == old(h.pinned) + created && |created| == 3
    ensures svrIface == created[0] && stub == created[2]
    ensures created[0] == PtrSlot(created[0].addr, ServerInterface(RpcServerInterface(iid, me.addr)))
    ensures created[1] == PtrSlot(created[1].addr, Bytes(formatTypes))
    ensures created[2] == PtrSlot(created[2].addr, StubDesc(StubDescriptors.StubDescRecord(created[0].addr, api, 0, created[1].addr, 0)))
  {
    svrIface := h.CreatePtr(ServerInterface(RpcServerInterface(iid, me.addr)));
    var desc := StubDescriptors.NewMidlStubDesc(h, api, svrIface.addr, formatTypes, true);
    stub := h.CreatePtr(StubDesc(desc));
    created := [svrIface, PtrSlot(desc.pFormatTypes, Bytes(formatTypes)), stub];
  }

  /** The second half of Configure: the entry point, its dispatch table, and the two format tables. */
  method PinDispatch(h: RpcHandle, formatProc: seq<uint8>, fnExecute: nat)
    returns (dispatchTable: Address, procString: Address, fmtStringOffset: Address, ghost created: seq<Slot>)
    requires h.Valid()
    modifies h
    ensures h.Valid() && h.handle == old(h.handle) && h.released == old(h.released)
    ensures h.pinned == old(h.pinned) + created && |created| == 4
    ensures dispatchTable == created[1].addr && procString == created[2].addr && fmtStringOffset == created[3].addr
    ensures created[0] == FunctionSlot(created[0].addr, RpcExecuteDelegate, fnExecute)
    ensures created[1] == PtrSlot(created[1].addr, IntPtrValue(created[0].addr))
    ensures created[2] == PtrSlot(created[2].addr, Bytes(formatProc))
    ensures created[3] == PtrSlot(created[3].addr, Ints([0]))
  {
    var ptrFunction := h.PinFunction(RpcExecuteDelegate, fnExecute);
    dispatchTable := h.Pin(IntPtrValue(ptrFunction));
    procString := h.Pin(Bytes(formatProc));
    fmtStringOffset := h.Pin(Ints([0]));
    created := [FunctionSlot(ptrFunction, RpcExecuteDelegate, fnExecute), PtrSlot(dispatchTable, IntPtrValue(ptrFunction)),
                PtrSlot(procString, Bytes(formatProc)), PtrSlot(fmtStringOffset, Ints([0]))];
  }
}
