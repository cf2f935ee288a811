/** The status and error model of the bridge: a native status code is a
    signed 32-bit integer, negative on failure, and a failure reaches the
    caller either as the bare code or as a diagnostics blob. */
module Utils {
  import opened Ffi

  /** `sys::SlangResult`. */
  type SlangResult = int32

  const S_OK: SlangResult := 0
  /** The HRESULT 0x80070057 read as a signed 32-bit value. */
  const E_INVALIDARG: SlangResult := -2147024809
  /** The HRESULT 0x80004002 read as a signed 32-bit value. */
  const E_NOINTERFACE: SlangResult := -2147467262

  /** The two kinds of failure: a status code alone, or a diagnostics blob
      (whose own status code is not kept). */
  datatype Error =
    | ResultCode(code: SlangResult)
    | Diagnostics(blob: Handle)

  datatype Result<T> = Ok(value: T) | Err(error: Error)

  /** The single rule for reading a status code. */
  predicate Succeeded(result: SlangResult) {
    result >= 0
  }

  /** Zero and every positive code are success; only negative codes fail. */
  lemma SuccessIsNonNegative(result: SlangResult)
    ensures Succeeded(result) <==> result == S_OK || result > 0
    ensures Succeeded(result) != (result < 0)
  {
  }

  /** `Error::default()`: the invalid-argument status code. */
  function DefaultError(): (e: Error)
    ensures e.ResultCode? && e.code == E_INVALIDARG
    ensures !Succeeded(e.code)
  {
    ResultCode(E_INVALIDARG)
  }

  /** A status-only call: failure carries the code it failed with. */
  function ResultFromFfi(result: SlangResult): (r: Result<()>)
    ensures r.Ok? <==> Succeeded(result)
    ensures r.Err? ==> r.error == ResultCode(result) && !Succeeded(r.error.code)
  {
    if result < 0 then Err(ResultCode(result)) else Ok(())
  }

  /** A call with a diagnostics out-parameter: failure carries the blob the
      native side wrote, whatever it is (null included); on success the blob
      is dropped. */
  function ResultFromBlob(result: SlangResult, blob: Ptr): (r: Result<()>)
    ensures r.Ok? <==> Succeeded(result)
    ensures r.Err? ==> r.error == Diagnostics(Handle(Blob, blob))
  {
    if result < 0 then Err(Diagnostics(Handle(Blob, blob))) else Ok(())
  }

  /** On success the diagnostics pointer has no influence on the outcome,
      and both mappings agree on whether a status is a failure. */
  lemma ResultMappingsAgree(result: SlangResult, b0: Ptr, b1: Ptr)
    ensures ResultFromBlob(result, b0).Ok? == ResultFromFfi(result).Ok?
    ensures Succeeded(result) ==> ResultFromBlob(result, b0) == ResultFromBlob(result, b1)
    ensures !Succeeded(result) ==> (ResultFromBlob(result, b0) == ResultFromBlob(result, b1) <==> b0 == b1)
  {
  }

  /** The named constants: success is zero, both error constants are
      failures and are the HRESULT bit patterns the native library uses. */
  lemma StatusConstants()
    ensures Succeeded(S_OK) && S_OK == 0
    ensures !Succeeded(E_INVALIDARG) && E_INVALIDARG == WrapI32(0x8007_0057)
    ensures !Succeeded(E_NOINTERFACE) && E_NOINTERFACE == WrapI32(0x8000_4002)
  {
  }
}
