/**
 * RpcApi: the process-wide NDR format strings, chosen once by pointer
 * width, the pinned copy of the procedure format string, the native
 * allocator thunks, and the null-guarded Free.
 */
module RpcApiTables {
  import opened RpcTypes
  import Handles

  /** IntPtr.Size of the process. */
  type PointerSize = p: nat | p == 4 || p == 8 witness 8

  /** TYPE_FORMAT of a 64-bit process. */
  function TypeFormat64(): (t: seq<uint8>)
    ensures |t| == 39 && t[38] == 0x00
  {
    [0x00, 0x00, 0x1b, 0x00, 0x01, 0x00, 0x28, 0x00, 0x08, 0x00] +
    [0x01, 0x00, 0x01, 0x5b, 0x11, 0x0c, 0x08, 0x5c, 0x11, 0x14] +
    [0x02, 0x00, 0x12, 0x00, 0x02, 0x00, 0x1b, 0x00, 0x01, 0x00] +
    [0x28, 0x54, 0x18, 0x00, 0x01, 0x00, 0x01, 0x5b, 0x00]
  }

  /** TYPE_FORMAT of a 32-bit process. */
  function TypeFormat32(): (t: seq<uint8>)
    ensures |t| == 39 && t[38] == 0x00
  {
    [0x00, 0x00, 0x1b, 0x00, 0x01, 0x00, 0x28, 0x00, 0x04, 0x00] +
    [0x01, 0x00, 0x01, 0x5b, 0x11, 0x0c, 0x08, 0x5c, 0x11, 0x14] +
    [0x02, 0x00, 0x12, 0x00, 0x02, 0x00, 0x1b, 0x00, 0x01, 0x00] +
    [0x28, 0x54, 0x0c, 0x00, 0x01, 0x00, 0x01, 0x5b, 0x00]
  }

  /** FUNC_FORMAT (the procedure format string) of a 64-bit process. */
  function FuncFormat64(): (t: seq<uint8>)
    ensures |t| == 61 && t[60] == 0x00
  {
    [0x00, 0x68, 0x00, 0x00, 0x00, 0x00, 0x00, 0x00, 0x30, 0x00] +
    [0x32, 0x00, 0x00, 0x00, 0x08, 0x00, 0x24, 0x00, 0x47, 0x05] +
    [0x0a, 0x07, 0x01, 0x00, 0x01, 0x00, 0x00, 0x00, 0x00, 0x00] +
    [0x48, 0x00, 0x08, 0x00, 0x08, 0x00, 0x0b, 0x00, 0x10, 0x00] +
    [0x02, 0x00, 0x50, 0x21, 0x18, 0x00, 0x08, 0x00, 0x13, 0x20] +
    [0x20, 0x00, 0x12, 0x00, 0x70, 0x00, 0x28, 0x00, 0x10, 0x00] +
    [0x00]
  }

  /** FUNC_FORMAT of a 32-bit process. */
  function FuncFormat32(): (t: seq<uint8>)
    ensures |t| == 59 && t[58] == 0x00
  {
    [0x00, 0x68, 0x00, 0x00, 0x00, 0x00, 0x00, 0x00, 0x18, 0x00] +
    [0x32, 0x00, 0x00, 0x00, 0x08, 0x00, 0x24, 0x00, 0x47, 0x05] +
    [0x08, 0x07, 0x01, 0x00, 0x01, 0x00, 0x00, 0x00, 0x48, 0x00] +
    [0x04, 0x00, 0x08, 0x00, 0x0b, 0x00, 0x08, 0x00, 0x02, 0x00] +
    [0x50, 0x21, 0x0c, 0x00, 0x08, 0x00, 0x13, 0x20, 0x10, 0x00] +
    [0x12, 0x00, 0x70, 0x00, 0x14, 0x00, 0x10, 0x00, 0x00]
  }

  /** The two type tables differ only at the two pointer-sized offsets, index 8 and index 32. */
  lemma TypeFormatsDiffer()
    ensures forall i :: 0 <= i < 39 ==> (TypeFormat64()[i] != TypeFormat32()[i] <==> i == 8 || i == 32)
    ensures TypeFormat64()[8] == 0x08 && TypeFormat32()[8] == 0x04
    ensures TypeFormat64()[32] == 0x18 && TypeFormat32()[32] == 0x0c
  {
  }

  /** The procedure tables differ in length, and their stack sizes (byte 8) are 0x30 and 0x18. */
  lemma FuncFormatsDiffer()
    ensures |FuncFormat64()| == |FuncFormat32()| + 2
    ensures FuncFormat64()[8] == 0x30 && FuncFormat32()[8] == 0x18
    ensures FuncFormat64()[..8] == FuncFormat32()[..8]
  {
  }

  /**
   * The state RpcApi's static constructor and static fields leave behind.
   * The addresses are those the runtime hands out for the pinned
   * FUNC_FORMAT copy and the allocator thunks.
   */
  datatype RpcApi = RpcApi(
    pointerSize: PointerSize,
    is64BitProcess: bool,
    typeFormat: seq<uint8>,
    funcFormat: seq<uint8>,
    funcFormatPtr: Handles.Slot,
    allocPtr: Address,
    freePtr: Address)

  /**
   * static RpcApi(): Is64BitProcess is IntPtr.Size == 8, both tables are
   * taken from the same branch, and FUNC_FORMAT_PTR pins the chosen
   * FUNC_FORMAT.
   */
  function Initialize(pointerSize: PointerSize, funcFormatAddr: Address, allocAddr: Address, freeAddr: Address): (api: RpcApi)
    requires funcFormatAddr != 0
    ensures api.pointerSize == pointerSize
    ensures api.is64BitProcess <==> pointerSize == 8
    ensures api.is64BitProcess ==> api.typeFormat == TypeFormat64() && api.funcFormat == FuncFormat64()
    ensures !api.is64BitProcess ==> api.typeFormat == TypeFormat32() && api.funcFormat == FuncFormat32()
    ensures api.funcFormatPtr == Handles.PtrSlot(funcFormatAddr, Handles.Bytes(api.funcFormat))
    ensures api.allocPtr == allocAddr && api.freePtr == freeAddr
  {
    var is64 := pointerSize == 8;
    var typeFormat := if is64 then TypeFormat64() else TypeFormat32();
    var funcFormat := if is64 then FuncFormat64() else FuncFormat32();
    RpcApi(pointerSize, is64, typeFormat, funcFormat,
           Handles.PtrSlot(funcFormatAddr, Handles.Bytes(funcFormat)), allocAddr, freeAddr)
  }

  /** Whatever the pointer width, the selected tables end in 0x00 and the type table is 39 bytes. */
  lemma {:induction false} SelectedTablesWellFormed(api: RpcApi, pointerSize: PointerSize, a: Address, b: Address, c: Address)
    requires a != 0 && api == Initialize(pointerSize, a, b, c)
    ensures |api.typeFormat| == 39 && api.typeFormat[38] == 0
    ensures |api.funcFormat| == (if pointerSize == 8 then 61 else 59) && api.funcFormat[|api.funcFormat| - 1] == 0
    ensures api.funcFormatPtr.data.bytes != (if pointerSize == 8 then FuncFormat32() else FuncFormat64())
  {
    assert |FuncFormat32()| != |FuncFormat64()|;
  }

  /** A call into Kernel32's local heap. */
  datatype HeapCall = LocalAlloc(flags: uint32, size: uint32) | LocalFree(ptr: Address)

  /** LPTR: LMEM_FIXED | LMEM_ZEROINIT */
  const LPTR: uint32 := 0x0040

  /** RpcApi.Free(ptr): the native free it issues, none for the zero pointer. */
  function Free(ptr: Address): (calls: seq<HeapCall>)
    ensures ptr == 0 <==> calls == []
    ensures ptr != 0 ==> |calls| == 1 && calls[0].LocalFree? && calls[0].ptr == ptr
  {
    if ptr != 0 then [LocalFree(ptr)] else []
  }

  /** RpcApi.Alloc(size): one LocalAlloc(LPTR, size); the address it returns comes from the heap. */
  function AllocCall(size: uint32): (call: HeapCall)
    ensures call.LocalAlloc? && call.size == size && call.flags == LPTR
  {
    LocalAlloc(LPTR, size)
  }
}
