/** The session and target descriptors handed to the native compiler. Each
    is built from `Default`, which stamps the structure size and zeroes the
    rest, through fluent setters that each write their own field or their own
    pointer/count pair. A native pointer to an array is modelled as a
    reference to the array (null when zeroed); a pointer into a
    `CompilerOptions` entry list as a reference to that builder. */
module Descriptors {
  import opened Ffi
  import Options

  /** `size_of::<slang_TargetDesc>()`; its value depends on the binding's
      layout, so it is left abstract. */
  const TargetDescSize: nat
  /** `size_of::<slang_SessionDesc>()`, likewise abstract. */
  const SessionDescSize: nat

  /** The `CompileTarget` whose discriminant is zero (what a zeroed field reads as). */
  const ZeroFormat: int32 := 0
  /** The profile id whose value is zero. */
  const ZeroProfile: u32 := 0

  class TargetDesc {
    var structureSize: nat
    var format: int32
    var profile: u32
    var compilerOptionEntries: Options.CompilerOptions?
    var compilerOptionEntryCount: nat

    /** The state `Default` produces. */
    predicate IsDefault()
      reads this
    {
      && structureSize == TargetDescSize
      && format == ZeroFormat && profile == ZeroProfile
      && compilerOptionEntries == null && compilerOptionEntryCount == 0
    }

    /** `TargetDesc::default()`. */
    constructor ()
      ensures IsDefault()
    {
      structureSize := TargetDescSize;
      format := ZeroFormat;
      profile := ZeroProfile;
      compilerOptionEntries := null;
      compilerOptionEntryCount := 0;
    }

    /** `format`: writes the compile target only. */
    method Format(target: int32)
      modifies this
      ensures format == target
      ensures structureSize == old(structureSize) && profile == old(profile)
      ensures compilerOptionEntries == old(compilerOptionEntries)
      ensures compilerOptionEntryCount == old(compilerOptionEntryCount)
    {
      format := target;
    }

    /** `profile`: writes the profile id only. */
    method Profile(id: u32)
      modifies this
      ensures profile == id
      ensures structureSize == old(structureSize) && format == old(format)
      ensures compilerOptionEntries == old(compilerOptionEntries)
      ensures compilerOptionEntryCount == old(compilerOptionEntryCount)
    {
      profile := id;
    }

    /** `options`: points at the builder's entries and records how many
        there are. */
    method Options(opts: Options.CompilerOptions)
      modifies this
      ensures compilerOptionEntries == opts
      ensures compilerOptionEntryCount == |opts.options|
      ensures structureSize == old(structureSize)
      ensures format == old(format) && profile == old(profile)
    {
      compilerOptionEntries := opts;
      compilerOptionEntryCount := |opts.options|;
    }
  }

  class SessionDesc {
    var structureSize: nat
    var targets: array?<TargetDesc>
    var targetCount: nat
    var searchPaths: array?<Ptr>
    var searchPathCount: nat
    var compilerOptionEntries: Options.CompilerOptions?
    var compilerOptionEntryCount: nat
    var fileSystem: Ptr

    /** The state `Default` produces. */
    predicate IsDefault()
      reads this
    {
      && structureSize == SessionDescSize
      && targets == null && targetCount == 0
      && searchPaths == null && searchPathCount == 0
      && compilerOptionEntries == null && compilerOptionEntryCount == 0
      && fileSystem == Null
    }

    /** `SessionDesc::default()`. */
    constructor ()
      ensures IsDefault()
    {
      structureSize := SessionDescSize;
      targets := null;
      targetCount := 0;
      searchPaths := null;
      searchPathCount := 0;
      compilerOptionEntries := null;
      compilerOptionEntryCount := 0;
      fileSystem := Null;
    }

    /** `targets`: the target array and its length. */
    method Targets(ts: array<TargetDesc>)
      modifies this
      ensures targets == ts && targetCount == ts.Length
      ensures structureSize == old(structureSize)
      ensures searchPaths == old(searchPaths) && searchPathCount == old(searchPathCount)
      ensures compilerOptionEntries == old(compilerOptionEntries)
      ensures compilerOptionEntryCount == old(compilerOptionEntryCount)
      ensures fileSystem == old(fileSystem)
    {
      targets := ts;
      targetCount := ts.Length;
    }

    /** `search_paths`: the array of C-string pointers and its length. */
    method SearchPaths(paths: array<Ptr>)
      modifies this
      ensures searchPaths == paths && searchPathCount == paths.Length
      ensures structureSize == old(structureSize)
      ensures targets == old(targets) && targetCount == old(targetCount)
      ensures compilerOptionEntries == old(compilerOptionEntries)
      ensures compilerOptionEntryCount == old(compilerOptionEntryCount)
      ensures fileSystem == old(fileSystem)
    {
      searchPaths := paths;
      searchPathCount := paths.Length;
    }

    /** `options`: points at the builder's entries and records how many
        there are. */
    method Options(opts: Options.CompilerOptions)
      modifies this
      ensures compilerOptionEntries == opts
      ensures compilerOptionEntryCount == |opts.options|
      ensures structureSize == old(structureSize)
      ensures targets == old(targets) && targetCount == old(targetCount)
      ensures searchPaths == old(searchPaths) && searchPathCount == old(searchPathCount)
      ensures fileSystem == old(fileSystem)
    {
      compilerOptionEntries := opts;
      compilerOptionEntryCount := |opts.options|;
    }

    /** `file_system`: stores the address of the (leaked, so never null)
        wrapper object around the host's file system. */
    method FileSystem(wrapper: Ptr)
      requires wrapper != Null
      modifies this
      ensures fileSystem == wrapper
      ensures structureSize == old(structureSize)
      ensures targets == old(targets) && targetCount == old(targetCount)
      ensures searchPaths == old(searchPaths) && searchPathCount == old(searchPathCount)
      ensures compilerOptionEntries == old(compilerOptionEntries)
      ensures compilerOptionEntryCount == old(compilerOptionEntryCount)
    {
      fileSystem := wrapper;
    }
  }
}
