/** Machine-level values that cross the boundary with the native shader
    compiler: fixed-width integers, raw pointers and the typed handles that
    wrap them. The native side itself is not modelled; what it returns is
    passed in as a parameter wherever a call is modelled. */
module Ffi {

  const TWO_TO_THE_31: int := 0x8000_0000
  const TWO_TO_THE_32: int := 0x1_0000_0000

  /** A Rust `i32`. */
  type int32 = x: int | -TWO_TO_THE_31 <= x < TWO_TO_THE_31

  /** A Rust `u32`. */
  type u32 = x: int | 0 <= x < TWO_TO_THE_32

  /** The `as` cast between 32-bit integers: the bit pattern is kept and
      reinterpreted, which is a wrap-around modulo 2^32. */
  function WrapI32(x: int): (r: int32)
    ensures (r - x) % TWO_TO_THE_32 == 0
    ensures -TWO_TO_THE_31 <= x < TWO_TO_THE_31 ==> r == x
  {
    var m := x % TWO_TO_THE_32;
    if m < TWO_TO_THE_31 then m else m - TWO_TO_THE_32
  }

  /** `as u32` applied to a signed 32-bit value. */
  function WrapU32(x: int): (r: u32)
    ensures (r - x) % TWO_TO_THE_32 == 0
    ensures 0 <= x < TWO_TO_THE_32 ==> r == x
  {
    x % TWO_TO_THE_32
  }

  /** A non-zero machine address. */
  type Address = x: int | x > 0 witness 1

  /** A raw pointer, seen only as null or as some non-zero address, so
      null has exactly one representation. */
  datatype Ptr = Null | NonNull(address: Address)

  /** The interfaces `define_interface!` wraps. The last three are declared
      with a base type (the third arm of the macro): they extend the
      component-type interface and have no `Clone` of their own. */
  datatype Interface =
    | Blob
    | GlobalSession
    | Session
    | Metadata
    | ProgramLayout
    | ComponentType
    | EntryPoint
    | TypeConformance
    | Module
  {
    /** Declared through the arm `($name, $sys_ty, $base_ty)`: `Deref` to the
        component type, no `Clone`. */
    predicate IsDerived() {
      this == EntryPoint || this == TypeConformance || this == Module
    }
  }

  /** A value of one of the structs `define_interface!` generates: a
      transparent wrapper around exactly one raw pointer. The interface is
      the struct's Rust type. */
  datatype Handle = Handle(interface: Interface, raw: Ptr)

  datatype Option<T> = None | Some(value: T)

  /** Text that `CString::new` accepts: it holds no NUL character
      (`CString::new` rejects it otherwise, and every caller's `unwrap`
      then panics). */
  predicate IsCStringContent(s: string) {
    forall i :: 0 <= i < |s| ==> s[i] != '\0'
  }
}
