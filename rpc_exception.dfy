/**
 * RpcException: a Win32 exception carrying an RPC status code, and the
 * Assert helpers that turn every non-OK status into one.
 */
module RpcExceptions {
  import opened RpcTypes

  /** The unchecked (int) cast of a status code to the stored NativeErrorCode. */
  function ToNativeErrorCode(code: RpcError): (n: int32)
    ensures code < 0x8000_0000 ==> n == code
    ensures code >= 0x8000_0000 ==> n == code - 0x1_0000_0000
  {
    if code < 0x8000_0000 then code else code - 0x1_0000_0000
  }

  /** The (RpcError) cast of a stored NativeErrorCode back to a status code. */
  function FromNativeErrorCode(n: int32): (code: RpcError)
    ensures (code - n) % 0x1_0000_0000 == 0
  {
    if n >= 0 then n else n + 0x1_0000_0000
  }

  /** new RpcException(errorCode) */
  function NewRpcException(code: RpcError): (ex: Exception)
    ensures ex.RpcException?
    ensures FromNativeErrorCode(ex.nativeErrorCode) == code
  {
    RpcException(ToNativeErrorCode(code))
  }

  /** The RpcError property of an RpcException: the code whose constructor builds this very exception. */
  function RpcErrorOf(ex: Exception): (r: RpcError)
    requires ex.RpcException?
    ensures NewRpcException(r) == ex
  {
    FromNativeErrorCode(ex.nativeErrorCode)
  }

  /** The constructor's code survives the uint -> int -> uint round trip, for every code. */
  lemma RpcErrorRoundTrip(code: RpcError)
    ensures RpcErrorOf(NewRpcException(code)) == code
  {
  }

  /** The code 0x80004005 (RPC_E_FAIL) is stored as a negative NativeErrorCode and still round-trips. */
  lemma EFailRoundTrip()
    ensures NewRpcException(RPC_E_FAIL).nativeErrorCode == -0x7FFF_BFFB
    ensures RpcErrorOf(NewRpcException(RPC_E_FAIL)) == RPC_E_FAIL
  {
  }

  /** RpcException.Assert(RpcError): returns normally on RPC_S_OK, raises an RpcException with that code otherwise. */
  function Assert(code: RpcError): (r: Outcome)
    ensures r.Ok? <==> code == RPC_S_OK
    ensures r.Raised? ==> r.ex.RpcException? && RpcErrorOf(r.ex) == code
  {
    if code != RPC_S_OK then Raised(NewRpcException(code)) else Ok
  }

  /** RpcException.Assert(int): the raw int is cast to RpcError first. */
  function AssertRaw(raw: int32): (r: Outcome)
    ensures r == Assert(FromNativeErrorCode(raw))
    ensures r.Ok? <==> raw == 0
    ensures r.Raised? ==> r.ex == RpcException(raw)
  {
    Assert(FromNativeErrorCode(raw))
  }
}
