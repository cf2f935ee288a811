# slang-rs bridge core, modelled in Dafny

slang-rs wraps the Slang shader compiler. The compiler exposes its objects
only as reference-counted, vtable-dispatched native handles. Almost every
method of the crate is a single call through a vtable slot. The logic the
crate adds of its own, modelled here, is:

- **Status and error mapping** (`ffi.dfy`, `utils.dfy`, `facade.dfy`). A
  `SlangResult` is a signed 32-bit code, and a negative code is a failure.
  A failure reaches the caller either as `Error::Result(code)` or as
  `Error::Blob(diagnostics)`. The pointer-returning calls `load_module` and
  `layout` turn a null pointer into `Err(Blob(diagnostics))`.
  `is_parameter_location_used` gives `Some(used)` only on success.
  `entry_points()` fetches indices `0..entry_point_count()` one at a time.
  Every native call is replaced by its results, taken as parameters: the
  status, the out pointer and the diagnostics pointer. The two error
  variants are named `Utils.ResultCode` (for `Error::Result`) and
  `Utils.Diagnostics` (for `Error::Blob`), because `Result` already names
  the result type and `Blob` already names an interface.
- **Handles** (`handles.dfy`). These are the structs `define_interface!`
  generates. `Clone` performs one `addRef` on the native object and returns
  the same pointer. The module widens `EntryPoint`, `TypeConformance` and
  `Module` to `ComponentType` by reinterpreting the pointer. There is no
  `Drop`, so counts only grow. Native reference counts are a map from object
  pointer to count, held by the class `RefCounts`.
- **The `CompilerOptions` builder** (`options.dfy`). A class with two
  append-only lists: owned C strings and tagged option entries. A string
  pointer inside an entry is modelled as the index of the owned string it
  points to. `Setter` has one constructor per public setter. `Lower` maps a
  setter to the private push that its `option!` arm makes. `Apply` and
  `Build` give the value-level meaning of one push and of a whole chain of
  pushes. A chain of setter calls is the chain of the pushes `Lower` gives.
  The lemmas cover: tag/payload consistency, append-only growth, one entry
  per call, and entries in call order whose string slots point to that
  call's own strings.
- **Descriptors** (`descriptors.dfy`). `TargetDesc` and `SessionDesc` are
  classes. Their constructor is `Default`: it stamps the structure size and
  zeroes everything else. Each fluent setter writes its own field, or its own
  pointer/count pair, and nothing else.

Three behaviours of the code worth knowing:

- The native `loadModule` and `getLayout` calls return no status; only the
  returned pointer decides success, and a failure always carries the
  diagnostics pointer, even when that pointer is null.
- `result_from_blob` puts whatever diagnostics pointer the native side wrote
  into `Error::Blob`, null included. The code does not treat a null
  diagnostics pointer as "no diagnostics".
- `load_module` and `layout` turn a null result into `Err(Blob(..))`, not
  `None`. A status-checked call that succeeds wraps its out pointer in `Ok`
  even when that pointer is null.

## Model

| member | source | states |
|---|---|---|
| `Utils.SuccessIsNonNegative` | src/lib.rs:36-38 | a status succeeds exactly when it is zero or positive, and fails exactly when negative |
| `Utils.DefaultError` | src/utils.rs:15-20 | the default error is the bare code `E_INVALIDARG`, which is a failure code |
| `Utils.ResultFromFfi` | src/utils.rs:24-31 | `Ok` exactly when the status succeeded; otherwise `Err(Result(code))` carrying the same code |
| `Utils.ResultFromBlob` | src/utils.rs:33-43 | `Ok` exactly when the status succeeded; otherwise `Err(Blob(..))` carrying exactly the diagnostics pointer given |
| `Utils.ResultMappingsAgree` | src/utils.rs:25-43 | both mappings agree on success; on success the diagnostics pointer has no effect; on failure the error identifies the pointer |
| `Utils.StatusConstants` | src/utils.rs:128-130 | `S_OK` is 0 and succeeds; `E_INVALIDARG` and `E_NOINTERFACE` fail and are the 32-bit patterns 0x80070057 and 0x80004002 |
| `Handles.AsRaw` | src/utils.rs:74-78 | the raw accessor returns the one pointer the handle wraps |
| `Handles.Widen` | src/utils.rs:107-114 | widening gives a `ComponentType` view over the identical pointer, with no call and no count change |
| `Handles.CountsAfterClones` | src/utils.rs:81-88 | a run of clones touches only the counts of objects already held (the set of keys is unchanged) |
| `Handles.CountsAfterClonesIsOccurrences` | src/utils.rs:81-88 | after any run of clones, each object's count has grown by exactly the number of times it was cloned |
| `Handles.CountsNeverDecrease` | src/utils.rs:45-117 | with no `Drop`, no count ever falls, and objects that were not cloned keep their counts |
| `Handles.RefCounts.Clone` | src/utils.rs:81-88 | one `addRef`: the cloned object's count rises by one, every other count is unchanged, and the returned handle is identical |
| `Facade.StatusPolarity` | src/lib.rs:122-131 | a failed status never yields `Ok`; a successful one yields the handle over the pointer the native side wrote |
| `Facade.NewGlobalSession` | src/lib.rs:101-120 | the global session pointer on success, the bare failure code otherwise |
| `Facade.CreateSession` | src/lib.rs:122-131 | the session pointer on success, the bare failure code otherwise (no diagnostics) |
| `Facade.LoadModule` | src/lib.rs:147-158 | `Err(Blob(diagnostics))` exactly when the returned pointer is null, otherwise `Ok` of a `Module` over that same pointer; the name must contain no NUL |
| `Facade.CreateCompositeComponentType` | src/lib.rs:160-182 | the composite on success; otherwise the diagnostics blob |
| `Facade.IsParameterLocationUsed` | src/lib.rs:188-202 | `Some(used)` exactly when the status succeeded, `None` otherwise |
| `Facade.Layout` | src/lib.rs:210-221 | `Err(Blob(diagnostics))` exactly when the returned pointer is null, otherwise `Ok` of a `ProgramLayout` over that same pointer |
| `Facade.Link` | src/lib.rs:223-233 | the linked component type on success; otherwise the diagnostics blob |
| `Facade.TargetCode` | src/lib.rs:235-262 | the code blob on success; otherwise the diagnostics blob (also `entry_point_code`) |
| `Facade.TargetMetadata` | src/lib.rs:264-305 | the metadata on success; otherwise the diagnostics blob (also `entry_point_metadata`) |
| `Facade.FindEntryPointByName` | src/lib.rs:322-333 | the entry point on success, the bare failure code otherwise; the name must contain no NUL |
| `Facade.EntryPointCount` | src/lib.rs:335-337 | a non-negative native count is returned as is; a negative one wraps around to 2^32 plus that count |
| `Facade.EntryPointByIndex` | src/lib.rs:339-347 | the entry point the native call wrote for that index on success, its failure code otherwise |
| `Facade.EntryPointsBelow` | src/lib.rs:349-351 | the first n elements of the iterator: one per index, each the unwrapped fetch of that index |
| `Facade.EntryPoints` | src/lib.rs:349-351 | exactly `entry_point_count()` items; the i-th is the entry point fetched for index i; every fetch must succeed (it is unwrapped) |
| `Facade.DependencyFilePaths` | src/lib.rs:368-379 | one path per index in `0..count` over the signed count, the i-th being `dependency_file_path(i)`; a zero or negative count gives no paths |
| `Facade.CountConventionsDiffer` | src/lib.rs:335-379 | on a non-negative count both iterators have the count's length; on a negative one the dependency paths are empty while the entry-point count wraps to at least 2^31 |
| `Options.BoolAsI32` | src/lib.rs:488-492 | a flag converts to 1 when set and 0 when clear |
| `Options.Lower` | src/lib.rs:487-614 | the push each setter makes: `macro_define` alone pushes two strings; the five single-`&str` setters push one; every other setter, `profile` and `capability` included, pushes integers with a zero second value |
| `Options.Apply` | src/lib.rs:517-565 | one push appends one entry and the pushed strings, in order; earlier entries and strings are unchanged; a string entry's slots point to exactly the strings just added; an int push adds no string |
| `Options.ApplyPreservesConsistent` | src/lib.rs:517-565 | each push preserves tag/payload consistency: Int entries have null string slots; String entries have zero ints and string slots that point into the owned strings |
| `Options.IntSetterShape` | src/lib.rs:487-493 | every int-valued setter, including `profile` and `capability`, appends exactly one Int entry (converted argument, then 0) and leaves the strings alone |
| `Options.ExtendsTransitive` | src/lib.rs:517-518 | keeping earlier entries and strings unchanged is preserved across several pushes |
| `Options.BuildConsistent` | src/lib.rs:510-565 | any chain of pushes (so of setter calls) that does not panic leaves every entry consistent with the strings |
| `Options.BuildExtends` | src/lib.rs:517-565 | append-only: the options and strings after a prefix of the pushes are unchanged prefixes of those after all of them |
| `Options.BuildSizes` | src/lib.rs:516-565 | there is exactly one entry per push, and exactly as many owned strings as the pushes handed over |
| `Options.BuildEntryAt` | src/lib.rs:568-614 | entries follow call order: the i-th entry is the one the i-th push appended, under its option name, with string slots pointing to its own strings, and the owned strings at those slots are exactly that push's `s0` (and `s1`) |
| `Options.CompilerOptions.constructor` | src/lib.rs:510-514 | `default()` starts with no strings and no entries |
| `Options.CompilerOptions.PushInts` | src/lib.rs:517-530 | appends one Int entry with both string slots null; strings unchanged; consistency kept |
| `Options.CompilerOptions.PushStrings` | src/lib.rs:532-545 | appends one String entry with both ints zero and the two given pointers; strings unchanged |
| `Options.CompilerOptions.PushStr1` | src/lib.rs:547-553 | owns one new string; the new entry's first slot points to it and its second slot is null; the string must hold no NUL |
| `Options.CompilerOptions.PushStr2` | src/lib.rs:555-565 | owns `s0`, then `s1`; the new entry's two slots point to them in that order; both must hold no NUL |
| `Options.CompilerOptions.Set` | src/lib.rs:568-614 | any public setter changes the builder exactly as `Apply` of its push, and keeps consistency |
| `Descriptors.TargetDesc.constructor` | src/lib.rs:401-411 | `default()` sets the structure size and zeroes every other field |
| `Descriptors.TargetDesc.Format` | src/lib.rs:414-417 | writes the compile target only |
| `Descriptors.TargetDesc.Profile` | src/lib.rs:419-422 | writes the profile id only |
| `Descriptors.TargetDesc.Options` | src/lib.rs:424-428 | points at the builder's entries, records their count and changes nothing else |
| `Descriptors.SessionDesc.constructor` | src/lib.rs:449-459 | `default()` sets the structure size and leaves every pointer null and every count zero |
| `Descriptors.SessionDesc.Targets` | src/lib.rs:462-466 | sets the target pointer and count to the slice and its length; nothing else changes |
| `Descriptors.SessionDesc.SearchPaths` | src/lib.rs:468-472 | sets the search-path pointer and count to the slice and its length; nothing else changes |
| `Descriptors.SessionDesc.Options` | src/lib.rs:474-478 | points at the builder's entries, records their count and changes nothing else |
| `Descriptors.SessionDesc.FileSystem` | src/lib.rs:480-484 | stores the non-null address of the leaked file-system wrapper; nothing else changes |

## Left out

- Vtable dispatch and every native entry point (`slang_createGlobalSession`, `createSession`, `loadModule`, `link`, `getTargetCode`, `findProfile`, `findCapability`, and so on): these are foreign calls. Only the mapping from what they return to the host's result is modelled.
- `GlobalSession::find_profile` and `find_capability`: each is a bare native call after `CString::new(..).unwrap()`, with nothing else decided by the bridge.
- `Module::name`, `file_path`, `unique_identity` and `dependency_file_path`: each is a single native call whose C string is converted with a UTF-8 `unwrap` (a panic on invalid UTF-8, which is not modelled); `Facade.DependencyFilePaths` takes `dependency_file_path` as a parameter returning a string.
- `Module::dependency_file_count`: a bare native call returning the signed count; it appears only as the count parameter of `Facade.DependencyFilePaths`.
- `Module::module_reflection` and `EntryPoint::function_reflection`: a native call whose pointer is cast to a reflection reference, with no check on the host side; reflection is not modelled.
- `Blob::as_slice` and `as_str`, and the `Display` of `Error::Blob`: raw-pointer slicing and standard UTF-8 validation. Note that formatting an `Error::Blob` holding a null pointer would call through a null vtable; the model records the null pointer but does not model display.
- `From<&[u8]>`, `From<Vec<u8>>` and `From<String>` for `Blob`, and the `impls` module (static blob, owned blob, file-system trampolines): `impls` is not part of this model. Its vtables and its release logic cannot be stated here.
- `Box::leak`, `PhantomData` lifetimes and `mem::transmute`: memory-safety mechanics. The lifetime tie between a descriptor and the arrays and builder it points into is not modelled, so nothing stops a modelled builder from growing after a descriptor has recorded its count.
- Panics are modelled as a `requires` that excludes the panicking input: `CString::new(..).unwrap()` in `load_module`, `find_entry_point_by_name`, `push_str1`, `push_str2` and every string setter becomes `IsCStringContent` on the string (`Facade.LoadModule`, `Facade.FindEntryPointByName`, `Options.CompilerOptions.PushStr1`, `Options.CompilerOptions.PushStr2`, `Options.CompilerOptions.Set`); the `.unwrap()` of each fetch in `entry_points` becomes the requirement that every fetch succeeds (`Facade.EntryPoints`, `Facade.EntryPointsBelow`). The panic itself is not modelled as an outcome.
- `std::mem::size_of`: the two structure sizes are abstract constants.
- Native descriptor fields that no setter touches (defined in the binding crate, which is not part of this model): `Default` zeroes them and nothing in this crate writes them, so they are omitted.
- Descriptors.TargetDesc.Options: the `len() as _` cast into the native count field is taken as exact. A list of 2^32 or more entries would truncate; that is not modelled.
- Descriptors.SessionDesc.Options: the `len() as _` cast is taken as exact, as above.
- Descriptors.SessionDesc.Targets: the `len() as _` cast is taken as exact, as above.
- Descriptors.SessionDesc.SearchPaths: the `len() as _` cast is taken as exact, as above.
- Enumeration arguments of the option setters are taken as their discriminants (`int32`). A profile id is taken as an unsigned 32-bit value, wrapped into `i32` by the cast. A capability id is taken as already an `i32`.
- Thread safety of sessions and callbacks: an external contract of the native library.
- `src/reflection/shader.rs`: every method is a single native reflection call. `compute_string_hash` delegates to the native hash, so the algorithm is not in the repository.
