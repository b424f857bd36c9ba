/**
 * Shared vocabulary of the RPC library model: fixed-width integers, GUIDs,
 * the Win32 RPC status codes and enumerations the core uses, and the
 * exceptions the core raises, as values.
 */
module RpcTypes {

  type uint8 = x: int | 0 <= x < 0x100
  type uint16 = x: int | 0 <= x < 0x1_0000
  type uint32 = x: int | 0 <= x < 0x1_0000_0000
  type int32 = x: int | -0x8000_0000 <= x < 0x8000_0000

  /** A native address (IntPtr); 0 is IntPtr.Zero. */
  type Address = nat

  /** Two's-complement truncation of an integer to 32 bits (unchecked C# int arithmetic). */
  function Wrap32(x: int): (r: int32)
    ensures -0x8000_0000 <= x < 0x8000_0000 ==> r == x
    ensures (r - x) % 0x1_0000_0000 == 0
  {
    (x + 0x8000_0000) % 0x1_0000_0000 - 0x8000_0000
  }

  type Bytes8 = s: seq<uint8> | |s| == 8 witness [0, 0, 0, 0, 0, 0, 0, 0]

  /** System.Guid in its (uint, ushort, ushort, byte[8]) form. */
  datatype Guid = Guid(data1: uint32, data2: uint16, data3: uint16, data4: Bytes8)

  /** Guid.Empty */
  const EmptyGuid: Guid := Guid(0, 0, 0, [0, 0, 0, 0, 0, 0, 0, 0])

  /** RpcError (Enums.cs): a uint status code, 0 meaning success. */
  type RpcError = uint32

  const RPC_S_OK: RpcError := 0
  const RPC_S_INVALID_ARG: RpcError := 87
  const RPC_S_ALREADY_LISTENING: RpcError := 1713
  const RPC_S_NO_PROTSEQS_REGISTERED: RpcError := 1714
  const RPC_S_NOT_LISTENING: RpcError := 1715
  const RPC_S_DUPLICATE_ENDPOINT: RpcError := 1740
  const RPC_E_FAIL: RpcError := 0x8000_4005

  /** RpcProtectionLevel */
  const RPC_C_PROTECT_LEVEL_DEFAULT: uint32 := 0
  const RPC_C_PROTECT_LEVEL_NONE: uint32 := 1
  const RPC_C_PROTECT_LEVEL_PKT_PRIVACY: uint32 := 6

  /** RpcAuthentication */
  const RPC_C_AUTHN_NONE: uint32 := 0
  const RPC_C_AUTHN_GSS_NEGOTIATE: uint32 := 9
  const RPC_C_AUTHN_WINNT: uint32 := 10

  /** RpcProtoseqType, the protocol of an inbound call */
  const PROTOSEQ_TCP: uint32 := 1
  const PROTOSEQ_NMP: uint32 := 2
  const PROTOSEQ_LRPC: uint32 := 3
  const PROTOSEQ_HTTP: uint32 := 4

  /** RpcCallClientLocality */
  const LOCALITY_INVALID: uint32 := 0
  const LOCALITY_LOCAL: uint32 := 1
  const LOCALITY_REMOTE: uint32 := 2

  /** The exceptions raised by the core. */
  datatype Exception =
    | RpcException(nativeErrorCode: int32)   // Win32Exception.NativeErrorCode
    | SehException(errorCode: int32)         // a native fault inside the call dispatcher
    | TimeoutException
    | UnauthorizedAccessException
    | InvalidOperationException
    | ArgumentNullException
    | OverflowException                      // new byte[n] with n < 0
    | SemaphoreFullException
    | HandlerException(id: nat)              // anything a user handler throws

  /** How a call that returns nothing ends. */
  datatype Outcome = Ok | Raised(ex: Exception)

  /** How a call that returns a value ends. */
  datatype Result<T> = Success(value: T) | Failure(ex: Exception)

  datatype Option<T> = None | Some(value: T)
}
