/** The `CompilerOptions` builder: a list of owned C strings and a list of
    tagged option entries. Every setter appends one entry; the string setters
    also append the strings the entry points to. A string pointer is modelled
    as the index of the owned string it points into. */
module Options {
  import opened Ffi

  /** The option names the builder's setters use (`slang_CompilerOptionName`). */
  datatype OptionName =
    | MacroDefine | Include | Language | MatrixLayoutColumn | MatrixLayoutRow
    | Profile | Stage | Target | WarningsAsErrors | DisableWarnings
    | EnableWarning | DisableWarning | ReportDownstreamTime | ReportPerfBenchmark
    | SkipSPIRVValidation | Capability | DefaultImageFormatUnknown
    | DisableDynamicDispatch | DisableSpecialization | FloatingPointMode
    | DebugInformation | LineDirectiveMode | Optimization | Obfuscate
    | VulkanUseEntryPointName | GLSLForceScalarLayout | EmitSpirvDirectly
    | NoCodeGen | NoMangle | ValidateUniformity

  /** The tag of the entry's value union. */
  datatype ValueKind = Int | String

  /** A `*const i8` in an entry: null, or a pointer to the owned string at
      `index` in the builder's string list. */
  datatype StrRef = NullStr | StrAt(index: nat)

  datatype OptionValue = OptionValue(
    kind: ValueKind,
    intValue0: int32,
    intValue1: int32,
    stringValue0: StrRef,
    stringValue1: StrRef)

  datatype OptionEntry = OptionEntry(name: OptionName, value: OptionValue)

  /** The entry `push_ints` appends. */
  function IntEntry(name: OptionName, i0: int32, i1: int32): OptionEntry {
    OptionEntry(name, OptionValue(Int, i0, i1, NullStr, NullStr))
  }

  /** The entry `push_strings` appends. */
  function StringEntry(name: OptionName, s0: StrRef, s1: StrRef): OptionEntry {
    OptionEntry(name, OptionValue(String, 0, 0, s0, s1))
  }

  /** A string slot that is null or points at one of `count` owned strings. */
  predicate RefersWithin(s: StrRef, count: nat) {
    s.StrAt? ==> s.index < count
  }

  /** Tag and payload agree: an Int entry has both string slots null; a
      String entry has both integers zero, a first string that exists and a
      second one that is null or exists. */
  predicate EntryConsistent(e: OptionEntry, stringCount: nat) {
    match e.value.kind
    case Int => e.value.stringValue0 == NullStr && e.value.stringValue1 == NullStr
    case String =>
      && e.value.intValue0 == 0 && e.value.intValue1 == 0
      && e.value.stringValue0.StrAt? && RefersWithin(e.value.stringValue0, stringCount)
      && RefersWithin(e.value.stringValue1, stringCount)
  }

  /** The contents of a `CompilerOptions`, as a value. */
  datatype Contents = Contents(strings: seq<string>, options: seq<OptionEntry>)

  /** Every entry is consistent with the strings owned alongside it, and
      every owned string is one `CString::new` accepted. */
  predicate Consistent(c: Contents) {
    && (forall i :: 0 <= i < |c.options| ==> EntryConsistent(c.options[i], |c.strings|))
    && (forall j :: 0 <= j < |c.strings| ==> IsCStringContent(c.strings[j]))
  }

  /** `true as i32` is 1 and `false as i32` is 0. */
  function BoolAsI32(b: bool): (r: int32)
    ensures r == 0 || r == 1
    ensures b <==> r == 1
  {
    if b then 1 else 0
  }

  /** One call of a public setter, with its arguments. An enumeration
      argument is given by its discriminant; a profile id by its unsigned
      32-bit value. */
  datatype Setter =
    | MacroDefine(key: string, value: string)
    | Include(path: string)
    | Language(language: int32)
    | MatrixLayoutColumn(enable: bool)
    | MatrixLayoutRow(enable: bool)
    | Profile(profile: u32)
    | Stage(stage: int32)
    | Target(target: int32)
    | WarningsAsErrors(warningCodes: string)
    | DisableWarnings(warningCodes: string)
    | EnableWarning(warningCode: string)
    | DisableWarning(warningCode: string)
    | ReportDownstreamTime(enable: bool)
    | ReportPerfBenchmark(enable: bool)
    | SkipSPIRVValidation(enable: bool)
    | Capability(capability: int32)
    | DefaultImageFormatUnknown(enable: bool)
    | DisableDynamicDispatch(enable: bool)
    | DisableSpecialization(enable: bool)
    | FloatingPointMode(mode: int32)
    | DebugInformation(level: int32)
    | LineDirectiveMode(mode: int32)
    | Optimization(level: int32)
    | Obfuscate(enable: bool)
    | VulkanUseEntryPointName(enable: bool)
    | GLSLForceScalarLayout(enable: bool)
    | EmitSpirvDirectly(enable: bool)
    | NoCodeGen(enable: bool)
    | NoMangle(enable: bool)
    | ValidateUniformity(enable: bool)

  /** Which private push a setter makes, and with what: the arm of `option!`
      (or the hand-written body) it was generated from. */
  datatype Push =
    | IntsPush(name: OptionName, i0: int32, i1: int32)
    | OneStringPush(name: OptionName, s0: string)
    | TwoStringsPush(name: OptionName, s0: string, s1: string)

  /** The push each public setter makes. The setters declared with one
      `&str` parameter take the one-string arm, `macro_define` alone takes
      the two-string arm, and every other setter the integer arm with a zero
      second value. */
  function Lower(c: Setter): (r: Push)
    ensures r.TwoStringsPush? <==> c.MacroDefine?
    ensures r.OneStringPush? <==>
      c.Include? || c.WarningsAsErrors? || c.DisableWarnings? || c.EnableWarning? || c.DisableWarning?
    ensures r.IntsPush? ==> r.i1 == 0
  {
    match c
    case MacroDefine(key, value) => TwoStringsPush(OptionName.MacroDefine, key, value)
    case Include(path) => OneStringPush(OptionName.Include, path)
    case Language(language) => IntsPush(OptionName.Language, language, 0)
    case MatrixLayoutColumn(enable) => IntsPush(OptionName.MatrixLayoutColumn, BoolAsI32(enable), 0)
    case MatrixLayoutRow(enable) => IntsPush(OptionName.MatrixLayoutRow, BoolAsI32(enable), 0)
    case Profile(profile) => IntsPush(OptionName.Profile, WrapI32(profile), 0)
    case Stage(stage) => IntsPush(OptionName.Stage, stage, 0)
    case Target(target) => IntsPush(OptionName.Target, target, 0)
    case WarningsAsErrors(codes) => OneStringPush(OptionName.WarningsAsErrors, codes)
    case DisableWarnings(codes) => OneStringPush(OptionName.DisableWarnings, codes)
    case EnableWarning(code) => OneStringPush(OptionName.EnableWarning, code)
    case DisableWarning(code) => OneStringPush(OptionName.DisableWarning, code)
    case ReportDownstreamTime(enable) => IntsPush(OptionName.ReportDownstreamTime, BoolAsI32(enable), 0)
    case ReportPerfBenchmark(enable) => IntsPush(OptionName.ReportPerfBenchmark, BoolAsI32(enable), 0)
    case SkipSPIRVValidation(enable) => IntsPush(OptionName.SkipSPIRVValidation, BoolAsI32(enable), 0)
    case Capability(capability) => IntsPush(OptionName.Capability, capability, 0)
    case DefaultImageFormatUnknown(enable) => IntsPush(OptionName.DefaultImageFormatUnknown, BoolAsI32(enable), 0)
    case DisableDynamicDispatch(enable) => IntsPush(OptionName.DisableDynamicDispatch, BoolAsI32(enable), 0)
    case DisableSpecialization(enable) => IntsPush(OptionName.DisableSpecialization, BoolAsI32(enable), 0)
    case FloatingPointMode(mode) => IntsPush(OptionName.FloatingPointMode, mode, 0)
    case DebugInformation(level) => IntsPush(OptionName.DebugInformation, level, 0)
    case LineDirectiveMode(mode) => IntsPush(OptionName.LineDirectiveMode, mode, 0)
    case Optimization(level) => IntsPush(OptionName.Optimization, level, 0)
    case Obfuscate(enable) => IntsPush(OptionName.Obfuscate, BoolAsI32(enable), 0)
    case VulkanUseEntryPointName(enable) => IntsPush(OptionName.VulkanUseEntryPointName, BoolAsI32(enable), 0)
    case GLSLForceScalarLayout(enable) => IntsPush(OptionName.GLSLForceScalarLayout, BoolAsI32(enable), 0)
    case EmitSpirvDirectly(enable) => IntsPush(OptionName.EmitSpirvDirectly, BoolAsI32(enable), 0)
    case NoCodeGen(enable) => IntsPush(OptionName.NoCodeGen, BoolAsI32(enable), 0)
    case NoMangle(enable) => IntsPush(OptionName.NoMangle, BoolAsI32(enable), 0)
    case ValidateUniformity(enable) => IntsPush(OptionName.ValidateUniformity, BoolAsI32(enable), 0)
  }

  /** The strings a push hands to `CString::new(..).unwrap()`, in order. */
  function PushedStrings(p: Push): seq<string> {
    match p
    case IntsPush(_, _, _) => []
    case OneStringPush(_, s0) => [s0]
    case TwoStringsPush(_, s0, s1) => [s0, s1]
  }

  /** The push does not panic: none of its strings holds a NUL. */
  predicate PushAccepted(p: Push) {
    forall j :: 0 <= j < |PushedStrings(p)| ==> IsCStringContent(PushedStrings(p)[j])
  }

  /** The one entry a push appends when `n` strings were already owned. */
  function PushedEntry(p: Push, n: nat): OptionEntry {
    match p
    case IntsPush(name, i0, i1) => IntEntry(name, i0, i1)
    case OneStringPush(name, _) => StringEntry(name, StrAt(n), NullStr)
    case TwoStringsPush(name, _, _) => StringEntry(name, StrAt(n), StrAt(n + 1))
  }

  /** What one push does to the builder's contents: the new strings go to the
      end of the string list, one entry to the end of the option list, and
      the entry's string slots point at exactly the strings just added. */
  function Apply(c: Contents, p: Push): (r: Contents)
    ensures |r.options| == |c.options| + 1 && r.options[..|c.options|] == c.options
    ensures |r.strings| == |c.strings| + |PushedStrings(p)| && r.strings[..|c.strings|] == c.strings
    ensures r.options[|c.options|].name == p.name
    ensures p.IntsPush? ==> r.strings == c.strings && r.options[|c.options|].value.kind == Int
    ensures !p.IntsPush? ==>
      && r.options[|c.options|].value.kind == String
      && r.options[|c.options|].value.stringValue0 == StrAt(|c.strings|)
      && r.strings[|c.strings|] == p.s0
    ensures p.OneStringPush? ==> r.options[|c.options|].value.stringValue1 == NullStr
    ensures p.TwoStringsPush? ==>
      && r.options[|c.options|].value.stringValue1 == StrAt(|c.strings| + 1)
      && r.strings[|c.strings| + 1] == p.s1
  {
    Contents(c.strings + PushedStrings(p), c.options + [PushedEntry(p, |c.strings|)])
  }

  /** Appending never breaks tag/payload consistency. */
  lemma ApplyPreservesConsistent(c: Contents, p: Push)
    requires Consistent(c) && PushAccepted(p)
    ensures Consistent(Apply(c, p))
  {
    var r := Apply(c, p);
    forall i | 0 <= i < |r.options|
      ensures EntryConsistent(r.options[i], |r.strings|)
    {
      if i < |c.options| {
        assert r.options[i] == c.options[i];
        assert EntryConsistent(c.options[i], |c.strings|);
      }
    }
    forall j | 0 <= j < |r.strings|
      ensures IsCStringContent(r.strings[j])
    {
      if j >= |c.strings| {
        assert r.strings[j] == PushedStrings(p)[j - |c.strings|];
      }
    }
  }

  /** Every int-valued setter (the bool and enum ones, `profile`,
      `capability`) appends one Int entry carrying its converted argument and
      a zero, and owns no new string. */
  lemma IntSetterShape(c: Contents, s: Setter)
    requires Lower(s).IntsPush?
    ensures Apply(c, Lower(s)).strings == c.strings
    ensures Apply(c, Lower(s)).options == c.options + [IntEntry(Lower(s).name, Lower(s).i0, 0)]
    ensures s.Profile? ==> Lower(s).i0 == WrapI32(s.profile)
    ensures s.Capability? ==> Lower(s).i0 == s.capability
  {
  }

  /** The contents after `CompilerOptions::default()` followed by `pushes`; a
      chain of setter calls is the chain of the pushes `Lower` gives. */
  function Build(pushes: seq<Push>): Contents
    decreases |pushes|
  {
    if pushes == [] then Contents([], [])
    else Apply(Build(pushes[..|pushes| - 1]), pushes[|pushes| - 1])
  }

  /** None of the pushes panics. */
  predicate AllAccepted(pushes: seq<Push>) {
    forall i :: 0 <= i < |pushes| ==> PushAccepted(pushes[i])
  }

  /** However the builder is used, its entries stay consistent with its
      strings. */
  lemma {:induction false} BuildConsistent(pushes: seq<Push>)
    requires AllAccepted(pushes)
    ensures Consistent(Build(pushes))
    decreases |pushes|
  {
    if pushes != [] {
      var init := pushes[..|pushes| - 1];
      assert AllAccepted(init) by {
        forall i | 0 <= i < |init| ensures PushAccepted(init[i]) {
          assert init[i] == pushes[i];
        }
      }
      BuildConsistent(init);
      ApplyPreservesConsistent(Build(init), pushes[|pushes| - 1]);
    }
  }

  /** `longer` holds `shorter`'s strings and entries, unchanged, at its
      front. */
  predicate Extends(longer: Contents, shorter: Contents) {
    && |shorter.options| <= |longer.options| && longer.options[..|shorter.options|] == shorter.options
    && |shorter.strings| <= |longer.strings| && longer.strings[..|shorter.strings|] == shorter.strings
  }

  lemma ExtendsTransitive(a: Contents, b: Contents, c: Contents)
    requires Extends(a, b) && Extends(b, c)
    ensures Extends(a, c)
  {
    assert a.options[..|c.options|] == a.options[..|b.options|][..|c.options|];
    assert a.strings[..|c.strings|] == a.strings[..|b.strings|][..|c.strings|];
  }

  /** Append-only: a longer chain of pushes extends both lists of a
      shorter one, leaving every earlier entry and string as it was. */
  lemma {:induction false} BuildExtends(pushes: seq<Push>, k: nat)
    requires k <= |pushes|
    ensures Extends(Build(pushes), Build(pushes[..k]))
    decreases |pushes| - k
  {
    if k < |pushes| {
      var init := pushes[..|pushes| - 1];
      assert init[..k] == pushes[..k];
      BuildExtends(init, k);
      assert Extends(Build(pushes), Build(init));
      ExtendsTransitive(Build(pushes), Build(init), Build(pushes[..k]));
    } else {
      assert pushes[..k] == pushes;
    }
  }

  /** One entry per push, and the number of owned strings is the number of
      strings the pushes handed over. */
  lemma {:induction false} BuildSizes(pushes: seq<Push>)
    ensures |Build(pushes).options| == |pushes|
    ensures |Build(pushes).strings| == StringsHandedOver(pushes)
    decreases |pushes|
  {
    if pushes != [] {
      BuildSizes(pushes[..|pushes| - 1]);
    }
  }

  /** How many strings the pushes hand to the builder. */
  function StringsHandedOver(pushes: seq<Push>): nat
    decreases |pushes|
  {
    if pushes == [] then 0
    else StringsHandedOver(pushes[..|pushes| - 1]) + |PushedStrings(pushes[|pushes| - 1])|
  }

  /** Entries appear in call order: the i-th entry is the one the i-th push
      appended, and its string slots point at that push's own strings. */
  lemma BuildEntryAt(pushes: seq<Push>, i: nat)
    requires i < |pushes|
    ensures |Build(pushes).options| == |pushes|
    ensures Build(pushes).options[i] == PushedEntry(pushes[i], |Build(pushes[..i]).strings|)
    ensures Build(pushes).options[i].name == pushes[i].name
    ensures |Build(pushes[..i]).strings| + |PushedStrings(pushes[i])| <= |Build(pushes).strings|
    ensures !pushes[i].IntsPush? ==> Build(pushes).strings[|Build(pushes[..i]).strings|] == pushes[i].s0
    ensures pushes[i].TwoStringsPush? ==> Build(pushes).strings[|Build(pushes[..i]).strings| + 1] == pushes[i].s1
  {
    var upTo := pushes[..i + 1];
    assert upTo[..|upTo| - 1] == pushes[..i];
    var before := Build(pushes[..i]);
    BuildSizes(pushes[..i]);
    assert Build(upTo) == Apply(before, pushes[i]);
    assert Build(upTo).options[i] == PushedEntry(pushes[i], |before.strings|);
    BuildSizes(pushes);
    BuildExtends(pushes, i + 1);
    var all := Build(pushes).strings;
    var m := |Build(upTo).strings|;
    assert all[..m] == Build(upTo).strings;
    forall j | |before.strings| <= j < m
      ensures all[j] == Build(upTo).strings[j]
    {
      assert all[j] == all[..m][j];
    }
  }

  /** The builder. Its methods take and give back ownership in the source
      (`mut self -> Self`), which here is a method changing the object. */
  class CompilerOptions {
    var strings: seq<string>
    var options: seq<OptionEntry>

    function Snapshot(): Contents
      reads this
    {
      Contents(strings, options)
    }

    ghost predicate Valid()
      reads this
    {
      Consistent(Snapshot())
    }

    /** `CompilerOptions::default()`: both lists empty. */
    constructor ()
      ensures Valid() && strings == [] && options == []
      ensures Snapshot() == Build([])
    {
      strings := [];
      options := [];
    }

    /** `push_ints`: one Int entry with both string slots null. */
    method PushInts(name: OptionName, i0: int32, i1: int32)
      requires Valid()
      modifies this
      ensures Valid()
      ensures strings == old(strings)
      ensures options == old(options) + [IntEntry(name, i0, i1)]
    {
      options := options + [IntEntry(name, i0, i1)];
      ApplyPreservesConsistent(old(Snapshot()), IntsPush(name, i0, i1));
    }

    /** `push_strings`: one String entry with both integers zero, holding the
        two pointers it is given. */
    method PushStrings(name: OptionName, s0: StrRef, s1: StrRef)
      modifies this
      ensures strings == old(strings)
      ensures options == old(options) + [StringEntry(name, s0, s1)]
    {
      options := options + [StringEntry(name, s0, s1)];
    }

    /** `push_str1`: owns one new string and appends an entry whose first
        slot points at it and whose second slot is null. */
    method PushStr1(name: OptionName, s0: string)
      requires Valid()
      requires IsCStringContent(s0)
      modifies this
      ensures Valid()
      ensures strings == old(strings) + [s0]
      ensures options == old(options) + [StringEntry(name, StrAt(|old(strings)|), NullStr)]
      ensures Snapshot() == Apply(old(Snapshot()), OneStringPush(name, s0))
    {
      var s0Ptr := StrAt(|strings|);
      strings := strings + [s0];
      PushStrings(name, s0Ptr, NullStr);
      ApplyPreservesConsistent(old(Snapshot()), OneStringPush(name, s0));
    }

    /** `push_str2`: owns `s0` then `s1`, and appends an entry whose two
        slots point at them, in that order. */
    method PushStr2(name: OptionName, s0: string, s1: string)
      requires Valid()
      requires IsCStringContent(s0) && IsCStringContent(s1)
      modifies this
      ensures Valid()
      ensures strings == old(strings) + [s0, s1]
      ensures options == old(options) + [StringEntry(name, StrAt(|old(strings)|), StrAt(|old(strings)| + 1))]
      ensures Snapshot() == Apply(old(Snapshot()), TwoStringsPush(name, s0, s1))
    {
      var s0Ptr := StrAt(|strings|);
      strings := strings + [s0];
      var s1Ptr := StrAt(|strings|);
      strings := strings + [s1];
      PushStrings(name, s0Ptr, s1Ptr);
      ApplyPreservesConsistent(old(Snapshot()), TwoStringsPush(name, s0, s1));
    }

    /** Any public setter: the push its `option!` arm (or hand-written body)
        makes. Panics, through `CString::new(..).unwrap()`, on a NUL. */
    method Set(call: Setter)
      requires Valid()
      requires PushAccepted(Lower(call))
      modifies this
      ensures Valid()
      ensures Snapshot() == Apply(old(Snapshot()), Lower(call))
    {
      match Lower(call)
      case IntsPush(name, i0, i1) =>
        PushInts(name, i0, i1);
      case OneStringPush(name, s0) =>
        assert PushedStrings(Lower(call))[0] == s0;
        PushStr1(name, s0);
      case TwoStringsPush(name, s0, s1) =>
        assert PushedStrings(Lower(call))[0] == s0 && PushedStrings(Lower(call))[1] == s1;
        PushStr2(name, s0, s1);
    }
  }
}
