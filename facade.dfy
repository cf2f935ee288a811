/** The typed facade calls, reduced to what the bridge itself decides: how
    the values a native call hands back (a status code, an out pointer, a
    diagnostics pointer, or a returned pointer alone) become the host's
    result. The native call is not modelled; its results are parameters. */
module Facade {
  import opened Ffi
  import opened Utils

  /** What a native call that reports through a status code leaves behind:
      the code and the pointer it wrote to its out-parameter. */
  datatype NativeOut = NativeOut(status: SlangResult, out: Ptr)

  /** The outcome of a call whose status is checked with `result_from_ffi`
      and whose out pointer is then wrapped as `interface`. */
  predicate FfiCallOutcome(r: Result<Handle>, interface: Interface, status: SlangResult, out: Ptr) {
    && (r.Ok? <==> Succeeded(status))
    && (r.Ok? ==> r.value == Handle(interface, out))
    && (r.Err? ==> r.error == ResultCode(status))
  }

  /** The outcome of a call whose status is checked with `result_from_blob`
      and whose out pointer is then wrapped as `interface`. */
  predicate BlobCallOutcome(r: Result<Handle>, interface: Interface, status: SlangResult, out: Ptr, diagnostics: Ptr) {
    && (r.Ok? <==> Succeeded(status))
    && (r.Ok? ==> r.value == Handle(interface, out))
    && (r.Err? ==> r.error == Diagnostics(Handle(Blob, diagnostics)))
  }

  /** The outcome of a call that returns a pointer and no status: only the
      returned pointer decides, null meaning failure. */
  predicate NullCheckOutcome(r: Result<Handle>, interface: Interface, returned: Ptr, diagnostics: Ptr) {
    && (r.Err? <==> returned == Null)
    && (r.Ok? ==> r.value == Handle(interface, returned))
    && (r.Err? ==> r.error == Diagnostics(Handle(Blob, diagnostics)))
  }

  /** `result_from_ffi(status)?; Ok(T(out))`. */
  function WrapFfi(interface: Interface, status: SlangResult, out: Ptr): (r: Result<Handle>)
    ensures FfiCallOutcome(r, interface, status, out)
  {
    match ResultFromFfi(status)
    case Err(e) => Err(e)
    case Ok(_) => Ok(Handle(interface, out))
  }

  /** `result_from_blob(status, diagnostics)?; Ok(T(out))`. */
  function WrapBlob(interface: Interface, status: SlangResult, out: Ptr, diagnostics: Ptr): (r: Result<Handle>)
    ensures BlobCallOutcome(r, interface, status, out, diagnostics)
  {
    match ResultFromBlob(status, diagnostics)
    case Err(e) => Err(e)
    case Ok(_) => Ok(Handle(interface, out))
  }

  /** `if ptr.is_null() { Err(Error::Blob(Blob(diagnostics))) } else { Ok(T(ptr)) }`. */
  function WrapNonNull(interface: Interface, returned: Ptr, diagnostics: Ptr): (r: Result<Handle>)
    ensures NullCheckOutcome(r, interface, returned, diagnostics)
  {
    if returned == Null then Err(Diagnostics(Handle(Blob, diagnostics)))
    else Ok(Handle(interface, returned))
  }

  /** A failed status is never paired with a claimed-successful value, and a
      successful one always yields the pointer the native side wrote. */
  lemma StatusPolarity(interface: Interface, status: SlangResult, out: Ptr, diagnostics: Ptr)
    ensures !Succeeded(status) ==> WrapFfi(interface, status, out).Err? && WrapBlob(interface, status, out, diagnostics).Err?
    ensures Succeeded(status) ==> WrapFfi(interface, status, out) == WrapBlob(interface, status, out, diagnostics) == Ok(Handle(interface, out))
  {
  }

  // ----- GlobalSession -----

  /** `GlobalSession::new` (and `new_without_core_module`): the session
      pointer the factory wrote, or its failure code. */
  function NewGlobalSession(status: SlangResult, session: Ptr): (r: Result<Handle>)
    ensures FfiCallOutcome(r, GlobalSession, status, session)
  {
    WrapFfi(GlobalSession, status, session)
  }

  /** `GlobalSession::create_session`: a status-only failure, no diagnostics. */
  function CreateSession(status: SlangResult, session: Ptr): (r: Result<Handle>)
    ensures FfiCallOutcome(r, Session, status, session)
  {
    WrapFfi(Session, status, session)
  }

  // ----- Session -----

  /** `Session::load_module`: the native call returns no status; only the
      returned pointer decides, null meaning failure with the diagnostics
      blob as the error. The name must be a valid C string. */
  function LoadModule(name: string, loaded: Ptr, diagnostics: Ptr): (r: Result<Handle>)
    requires IsCStringContent(name)
    ensures r.Err? <==> loaded == Null
    ensures r.Ok? ==> r.value == Handle(Module, loaded) && r.value.interface.IsDerived()
    ensures r.Err? ==> r.error == Diagnostics(Handle(Blob, diagnostics))
  {
    WrapNonNull(Module, loaded, diagnostics)
  }

  /** `Session::create_composite_component_type`. */
  function CreateCompositeComponentType(status: SlangResult, composite: Ptr, diagnostics: Ptr): (r: Result<Handle>)
    ensures BlobCallOutcome(r, ComponentType, status, composite, diagnostics)
  {
    WrapBlob(ComponentType, status, composite, diagnostics)
  }

  // ----- Metadata -----

  /** `Metadata::is_parameter_location_used`: the flag the native side
      wrote, only when the status succeeded. */
  function IsParameterLocationUsed(status: SlangResult, used: bool): (r: Option<bool>)
    ensures r.Some? <==> Succeeded(status)
    ensures r.Some? ==> r.value == used
  {
    if Succeeded(status) then Some(used) else None
  }

  // ----- ComponentType -----

  /** `ComponentType::layout`: no status comes back; only the returned
      pointer decides, null meaning failure, as for `load_module`. */
  function Layout(programLayout: Ptr, diagnostics: Ptr): (r: Result<Handle>)
    ensures r.Err? <==> programLayout == Null
    ensures r.Ok? ==> r.value == Handle(ProgramLayout, programLayout)
    ensures r.Err? ==> r.error == Diagnostics(Handle(Blob, diagnostics))
  {
    WrapNonNull(ProgramLayout, programLayout, diagnostics)
  }

  /** `ComponentType::link`. */
  function Link(status: SlangResult, linked: Ptr, diagnostics: Ptr): (r: Result<Handle>)
    ensures BlobCallOutcome(r, ComponentType, status, linked, diagnostics)
  {
    WrapBlob(ComponentType, status, linked, diagnostics)
  }

  /** `ComponentType::target_code` and `entry_point_code`: the code blob. */
  function TargetCode(status: SlangResult, code: Ptr, diagnostics: Ptr): (r: Result<Handle>)
    ensures BlobCallOutcome(r, Blob, status, code, diagnostics)
  {
    WrapBlob(Blob, status, code, diagnostics)
  }

  /** `ComponentType::target_metadata` and `entry_point_metadata`. */
  function TargetMetadata(status: SlangResult, metadata: Ptr, diagnostics: Ptr): (r: Result<Handle>)
    ensures BlobCallOutcome(r, Metadata, status, metadata, diagnostics)
  {
    WrapBlob(Metadata, status, metadata, diagnostics)
  }

  // ----- Module -----

  /** `Module::find_entry_point_by_name`: a status-only failure. */
  function FindEntryPointByName(name: string, status: SlangResult, entryPoint: Ptr): (r: Result<Handle>)
    requires IsCStringContent(name)
    ensures FfiCallOutcome(r, EntryPoint, status, entryPoint)
  {
    WrapFfi(EntryPoint, status, entryPoint)
  }

  /** `Module::entry_point_count`: the native signed count cast `as u32`, so
      a negative count would read as a huge one. */
  function EntryPointCount(nativeCount: int32): (c: u32)
    ensures nativeCount >= 0 ==> c == nativeCount
    ensures nativeCount < 0 ==> c == nativeCount + TWO_TO_THE_32
  {
    WrapU32(nativeCount)
  }

  /** `Module::entry_point_by_index`: `getDefinedEntryPoint` is the native
      call, as a function of the index. */
  function EntryPointByIndex(getDefinedEntryPoint: u32 -> NativeOut, index: u32): (r: Result<Handle>)
    ensures FfiCallOutcome(r, EntryPoint, getDefinedEntryPoint(index).status, getDefinedEntryPoint(index).out)
  {
    WrapFfi(EntryPoint, getDefinedEntryPoint(index).status, getDefinedEntryPoint(index).out)
  }

  /** The elements `entry_points()` yields before index `n`: each index
      fetched afresh and unwrapped. */
  function EntryPointsBelow(getDefinedEntryPoint: u32 -> NativeOut, n: nat): (r: seq<Handle>)
    requires n <= TWO_TO_THE_32
    requires forall i: u32 :: i < n ==> Succeeded(getDefinedEntryPoint(i).status)
    ensures |r| == n
    ensures forall i: u32 :: i < n ==> EntryPointByIndex(getDefinedEntryPoint, i) == Ok(r[i])
  {
    if n == 0 then []
    else EntryPointsBelow(getDefinedEntryPoint, n - 1) + [EntryPointByIndex(getDefinedEntryPoint, n - 1).value]
  }

  /** `Module::entry_points`: exactly `entry_point_count()` entry points, the
      i-th being what `entry_point_by_index(i)` returns. Every fetch is
      unwrapped, so the iterator panics unless every fetch succeeds. */
  function EntryPoints(nativeCount: int32, getDefinedEntryPoint: u32 -> NativeOut): (r: seq<Handle>)
    requires forall i: u32 :: i < EntryPointCount(nativeCount) ==> Succeeded(getDefinedEntryPoint(i).status)
    ensures |r| == EntryPointCount(nativeCount)
    ensures forall i :: 0 <= i < |r| ==> r[i] == Handle(EntryPoint, getDefinedEntryPoint(i).out)
  {
    EntryPointsBelow(getDefinedEntryPoint, EntryPointCount(nativeCount))
  }

  /** `Module::dependency_file_paths`: the paths at `0..dependency_file_count()`,
      where the count stays a signed `i32`, so a negative count gives no
      paths at all. `dependencyFilePath` is `dependency_file_path`, as a
      function of the index. */
  function DependencyFilePaths(nativeCount: int32, dependencyFilePath: int32 -> string): (r: seq<string>)
    ensures nativeCount <= 0 ==> r == []
    ensures nativeCount > 0 ==> |r| == nativeCount
    ensures forall i :: 0 <= i < |r| ==> r[i] == dependencyFilePath(i)
  {
    if nativeCount <= 0 then []
    else seq(nativeCount, (i: int) requires 0 <= i < nativeCount => dependencyFilePath(i))
  }

  /** The two count conventions part ways exactly on a negative native
      count: dependency paths come out empty, while entry points would be
      fetched for an index range of more than 2^31 values. */
  lemma CountConventionsDiffer(nativeCount: int32, dependencyFilePath: int32 -> string)
    ensures nativeCount >= 0 ==> |DependencyFilePaths(nativeCount, dependencyFilePath)| == EntryPointCount(nativeCount)
    ensures nativeCount < 0 ==>
      && |DependencyFilePaths(nativeCount, dependencyFilePath)| == 0
      && EntryPointCount(nativeCount) >= TWO_TO_THE_31
  {
  }
}
