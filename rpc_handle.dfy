/**
 * RpcHandle: a native handle together with an append-only arena of pinned
 * blocks (Ptr<T>) and function pointers (FunctionPtr<T>) that must stay
 * alive as long as the handle does. Disposing releases the native handle
 * first and then every pinned entry in reverse order of acquisition.
 */
module Handles {
  import opened RpcTypes
  import opened Structs
  import RpcExceptions

  /** What a pinned block holds (the T of a Ptr<T>). */
  datatype Payload =
    | IntPtrValue(p: Address)
    | Bytes(bytes: seq<uint8>)
    | Ints(ints: seq<int>)
    | CommFault(offsets: CommFaultOffsets)
    | ClientInterface(clientInterface: RpcClientInterface)
    | ServerInterface(serverInterface: RpcServerInterface)
    | StubDesc(stubDesc: MidlStubDesc)
    | ServerInfo(serverInfo: MidlServerInfo)

  /** The run-time type of a payload. */
  datatype PayloadType =
    | IntPtrType | BytesType | IntsType | CommFaultType
    | ClientInterfaceType | ServerInterfaceType | StubDescType | ServerInfoType

  function TypeOf(p: Payload): PayloadType
  {
    match p
    case IntPtrValue(_) => IntPtrType
    case Bytes(_) => BytesType
    case Ints(_) => IntsType
    case CommFault(_) => CommFaultType
    case ClientInterface(_) => ClientInterfaceType
    case ServerInterface(_) => ServerInterfaceType
    case StubDesc(_) => StubDescType
    case ServerInfo(_) => ServerInfoType
  }

  /** The delegate types the library turns into native function pointers. */
  datatype DelegateType = RpcExecuteDelegate | LocalAllocDelegate | LocalFreeDelegate | ServerEntryDelegate | AuthCallbackDelegate

  /**
   * One entry of the pinned list: a pinned object and its address, or a
   * delegate (identified by target) and the function pointer made for it.
   */
  datatype Slot =
    | PtrSlot(addr: Address, data: Payload)
    | FunctionSlot(addr: Address, delegateType: DelegateType, target: nat)

  /** The T of a GetPtr<T> lookup: Ptr<P> or FunctionPtr<D>. */
  datatype SlotType = PtrOf(payloadType: PayloadType) | FunctionPtrOf(delegateType: DelegateType)

  /** `o is T` */
  predicate IsA(s: Slot, t: SlotType)
  {
    match s
    case PtrSlot(_, data) => t == PtrOf(TypeOf(data))
    case FunctionSlot(_, d, _) => t == FunctionPtrOf(d)
  }

  /** The index of the first entry of type t, in list order. */
  function FindFirst(slots: seq<Slot>, t: SlotType): (r: Option<nat>)
    ensures r.Some? ==> r.value < |slots| && IsA(slots[r.value], t)
    ensures r.Some? ==> forall j :: 0 <= j < r.value ==> !IsA(slots[j], t)
    ensures r.None? <==> forall j :: 0 <= j < |slots| ==> !IsA(slots[j], t)
  {
    if slots == [] then None
    else if IsA(slots[0], t) then Some(0)
    else match FindFirst(slots[1..], t)
      case None => None
      case Some(k) => Some(k + 1)
  }

  /** Which native release RpcHandle.DisposeHandle performs. */
  datatype HandleKind =
    | ClientHandle   // RpcBindingFree, whose status is asserted
    | ServerHandle   // RpcServerUnregisterIf, whose status is ignored

  /** What disposing has released so far, in order. */
  datatype ReleaseEvent = HandleReleased(handle: Address) | SlotReleased(slot: Slot)

  /** The release of the native handle, which happens only for a non-zero handle. */
  function HandleRelease(handle: Address): (r: seq<ReleaseEvent>)
    ensures handle == 0 <==> r == []
  {
    if handle != 0 then [HandleReleased(handle)] else []
  }

  /** The releases of a pinned list, last acquired first. */
  function ReleaseOrder(slots: seq<Slot>): seq<ReleaseEvent>
  {
    if slots == [] then [] else ReleaseOrder(slots[1..]) + [SlotReleased(slots[0])]
  }

  /** Entry k of the release order is the k-th entry from the end of the list. */
  lemma {:induction false} ReleaseOrderAt(slots: seq<Slot>, k: nat)
    requires k < |slots|
    ensures |ReleaseOrder(slots)| == |slots|
    ensures ReleaseOrder(slots)[k] == SlotReleased(slots[|slots| - 1 - k])
  {
    if k == |slots| - 1 {
      ReleaseOrderLength(slots[1..]);
    } else {
      ReleaseOrderAt(slots[1..], k);
    }
  }

  lemma {:induction false} ReleaseOrderLength(slots: seq<Slot>)
    ensures |ReleaseOrder(slots)| == |slots|
  {
    if slots != [] {
      ReleaseOrderLength(slots[1..]);
    }
  }

  /** Entries acquired later are released earlier: the order of a concatenation is the reversed concatenation of the orders. */
  lemma {:induction false} ReleaseOrderAppend(a: seq<Slot>, b: seq<Slot>)
    ensures ReleaseOrder(a + b) == ReleaseOrder(b) + ReleaseOrder(a)
  {
    if a == [] {
      assert a + b == b;
    } else {
      assert (a + b)[1..] == a[1..] + b;
      ReleaseOrderAppend(a[1..], b);
    }
  }

  /** Addresses of the live entries are pairwise distinct. */
  predicate DistinctSlots(slots: seq<Slot>)
  {
    forall i, j :: 0 <= i < j < |slots| ==> slots[i].addr != slots[j].addr
  }

  /** With distinct entries, each is released exactly once, at position |slots| - 1 - i. */
  lemma ReleasedExactlyOnce(slots: seq<Slot>, i: nat)
    requires DistinctSlots(slots) && i < |slots|
    ensures |ReleaseOrder(slots)| == |slots|
    ensures forall k :: 0 <= k < |slots| ==> (ReleaseOrder(slots)[k] == SlotReleased(slots[i]) <==> k == |slots| - 1 - i)
  {
    ReleaseOrderLength(slots);
    forall k | 0 <= k < |slots|
      ensures ReleaseOrder(slots)[k] == SlotReleased(slots[i]) <==> k == |slots| - 1 - i
    {
      ReleaseOrderAt(slots, k);
    }
  }

  /** The pinned list after block addr has been overwritten with data (Marshal.StructureToPtr). */
  function Overwrite(slots: seq<Slot>, addr: Address, data: Payload): (r: seq<Slot>)
    ensures |r| == |slots|
    ensures forall i :: 0 <= i < |slots| ==> r[i].addr == slots[i].addr
    ensures forall i :: 0 <= i < |slots| ==> r[i] == if slots[i].PtrSlot? && slots[i].addr == addr then PtrSlot(addr, data) else slots[i]
  {
    if slots == [] then []
    else [if slots[0].PtrSlot? && slots[0].addr == addr then PtrSlot(addr, data) else slots[0]] + Overwrite(slots[1..], addr, data)
  }

  /** Overwriting a block whose address occurs once replaces exactly that entry. */
  lemma OverwriteOne(slots: seq<Slot>, n: nat, data: Payload)
    requires DistinctSlots(slots) && n < |slots| && slots[n].PtrSlot?
    ensures Overwrite(slots, slots[n].addr, data) == slots[n := PtrSlot(slots[n].addr, data)]
  {
    var r := Overwrite(slots, slots[n].addr, data);
    forall i | 0 <= i < |slots|
      ensures r[i] == slots[n := PtrSlot(slots[n].addr, data)][i]
    {
      if i != n {
        assert slots[i].addr != slots[n].addr;
      }
    }
  }

  class RpcHandle {
    /** Which subclass this is: RpcClientHandle or RpcServerHandle. */
    const kind: HandleKind
    /** The native handle; 0 is IntPtr.Zero. */
    var handle: Address
    /** _pinnedAddresses */
    var pinned: seq<Slot>
    /** The next address the allocator hands out; every address below it has been used. */
    var nextAddr: Address
    /** Everything released so far, in order. */
    var released: seq<ReleaseEvent>

    ghost predicate Valid()
      reads this
    {
      nextAddr >= 1 &&
      (forall i :: 0 <= i < |pinned| ==> 0 < pinned[i].addr < nextAddr) &&
      (forall i, j :: 0 <= i < j < |pinned| ==> pinned[i].addr < pinned[j].addr)
    }

    constructor (kind: HandleKind)
      ensures Valid()
      ensures this.kind == kind && handle == 0 && pinned == [] && released == []
    {
      this.kind := kind;
      handle := 0;
      pinned := [];
      nextAddr := 1;
      released := [];
    }

    lemma ValidDistinct()
      requires Valid()
      ensures DistinctSlots(pinned)
    {
    }

    /** CreatePtr(data): pins data at a fresh non-zero address and appends it. */
    method CreatePtr(data: Payload) returns (slot: Slot)
      requires Valid()
      modifies this
      ensures Valid()
      ensures slot.PtrSlot? && slot.data == data && slot.addr != 0
      ensures slot.addr == old(nextAddr) && nextAddr == old(nextAddr) + 1
      ensures pinned == old(pinned) + [slot]
      ensures handle == old(handle) && released == old(released)
    {
      slot := PtrSlot(nextAddr, data);
      pinned := pinned + [slot];
      nextAddr := nextAddr + 1;
    }

    /** Pin(data): CreatePtr(data).Handle */
    method Pin(data: Payload) returns (addr: Address)
      requires Valid()
      modifies this
      ensures Valid()
      ensures addr != 0
      ensures addr == old(nextAddr) && nextAddr == old(nextAddr) + 1
      ensures pinned == old(pinned) + [PtrSlot(addr, data)]
      ensures handle == old(handle) && released == old(released)
    {
      var slot := CreatePtr(data);
      addr := slot.addr;
    }

    /** PinFunction(target): the function pointer of a delegate, kept alive by the list. */
    method PinFunction(delegateType: DelegateType, target: nat) returns (addr: Address)
      requires Valid()
      modifies this
      ensures Valid()
      ensures addr != 0
      ensures addr == old(nextAddr) && nextAddr == old(nextAddr) + 1
      ensures pinned == old(pinned) + [FunctionSlot(addr, delegateType, target)]
      ensures handle == old(handle) && released == old(released)
    {
      addr := nextAddr;
      pinned := pinned + [FunctionSlot(addr, delegateType, target)];
      nextAddr := nextAddr + 1;
    }

    /** GetPtr<T>(out value): the first entry that is a T, or false and the default (None). */
    method GetPtr(t: SlotType) returns (found: bool, value: Option<Slot>)
      ensures found <==> exists j :: 0 <= j < |pinned| && IsA(pinned[j], t)
      ensures found ==> FindFirst(pinned, t).Some? && value == Some(pinned[FindFirst(pinned, t).value])
      ensures !found ==> value == None
    {
      var i := 0;
      while i < |pinned|
        invariant 0 <= i <= |pinned|
        invariant forall j :: 0 <= j < i ==> !IsA(pinned[j], t)
      {
        if IsA(pinned[i], t) {
          return true, Some(pinned[i]);
        }
        i := i + 1;
      }
      return false, None;
    }

    /** Marshal.StructureToPtr(data, addr): the pinned block at addr now holds data. */
    method WriteBack(addr: Address, data: Payload)
      requires Valid()
      modifies this
      ensures Valid()
      ensures pinned == Overwrite(old(pinned), addr, data)
      ensures forall n :: 0 <= n < |old(pinned)| && old(pinned)[n].PtrSlot? && old(pinned)[n].addr == addr ==>
                pinned == old(pinned)[n := PtrSlot(addr, data)]
      ensures handle == old(handle) && released == old(released) && nextAddr == old(nextAddr)
    {
      ghost var was := pinned;
      pinned := Overwrite(pinned, addr, data);
      forall n | 0 <= n < |was| && was[n].PtrSlot? && was[n].addr == addr
        ensures pinned == was[n := PtrSlot(addr, data)]
      {
        OverwriteOne(was, n, data);
      }
    }

    /**
     * Dispose(). status is what the native release returns when it is
     * called. A client handle asserts it, so a failure raises after the
     * release was attempted and skips the loop; a server handle ignores it.
     * The handle is zero on every exit.
     */
    method Dispose(status: RpcError) returns (o: Outcome)
      requires Valid()
      modifies this
      ensures Valid() && handle == 0 && nextAddr == old(nextAddr)
      ensures o.Raised? <==> kind == ClientHandle && old(handle) != 0 && status != RPC_S_OK
      ensures o.Raised? ==> o.ex == RpcExceptions.NewRpcException(status)
      ensures o.Raised? ==> pinned == old(pinned) && released == old(released) + HandleRelease(old(handle))
      ensures o.Ok? ==> pinned == [] && released == old(released) + HandleRelease(old(handle)) + ReleaseOrder(old(pinned))
    {
      if handle != 0 {
        released := released + [HandleReleased(handle)];
        if kind == ClientHandle {
          var r := RpcExceptions.Assert(status);
          if r.Raised? {
            handle := 0;
            return r;
          }
        }
        handle := 0;
      }
      var i := |pinned|;
      assert pinned[i..] == [];
      while i > 0
        invariant 0 <= i <= |pinned|
        invariant pinned == old(pinned) && nextAddr == old(nextAddr) && handle == 0
        invariant released == old(released) + HandleRelease(old(handle)) + ReleaseOrder(pinned[i..])
      {
        assert pinned[i - 1..][1..] == pinned[i..];
        i := i - 1;
        released := released + [SlotReleased(pinned[i])];
      }
      assert pinned[0..] == pinned;
      pinned := [];
      handle := 0;
      o := Ok;
    }
  }

  /** A second Dispose after a normal one releases nothing more. */
  method DisposeTwice(h: RpcHandle, first: RpcError, second: RpcError) returns (o1: Outcome, o2: Outcome)
    requires h.Valid()
    modifies h
    ensures o1.Ok? ==> o2 == Ok
    ensures o1.Ok? ==> h.released == old(h.released) + HandleRelease(old(h.handle)) + ReleaseOrder(old(h.pinned))
    ensures h.handle == 0
  {
    o1 := h.Dispose(first);
    o2 := h.Dispose(second);
  }
}
