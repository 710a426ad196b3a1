/** The C boundary as the wrapper sees it: opaque pointers, C strings and xmlSecBuffer contents. */
module Ffi {
  import opened Errors

  /** An opaque pointer into libxmlsec1, OpenSSL or libxml2; 0 is the null pointer. */
  type Handle = nat

  const Null: Handle := 0

  newtype byte = x: int | 0 <= x < 256

  /** Rust's `i32` (C's `int`). */
  newtype i32 = x: int | -0x8000_0000 <= x < 0x8000_0000

  /** Rust's `i64`. */
  newtype i64 = x: int | -0x8000_0000_0000_0000 <= x < 0x8000_0000_0000_0000

  /** A `*const c_char` argument: the null pointer, or a NUL-terminated copy of a Rust string. */
  datatype CString = NullStr | CStr(chars: string)

  /** `CString::new(s).unwrap()`: panics when `s` holds a NUL character, otherwise copies it. */
  function NewCString(s: string): (r: Outcome<CString>)
    ensures r.Panicked? <==> '\0' in s
    ensures r.Returned? ==> r.value == CStr(s)
  {
    if '\0' in s then Panicked else Returned(CStr(s))
  }

  /** How an optional Rust string is handed to C: `None` becomes the null pointer, `Some(v)` the copy of `v`. */
  function OptionalCString(s: Option<string>): (r: Outcome<CString>)
    ensures r.Panicked? <==> s.Some? && '\0' in s.value
    ensures r.Returned? ==> (r.value == NullStr <==> s == None)
    ensures r.Returned? && s.Some? ==> r.value == CStr(s.value)
  {
    match s
    case None => Returned(NullStr)
    case Some(v) => NewCString(v)
  }

  /** An xmlSecBuffer as read back with xmlSecBufferGetData (`data`) and xmlSecBufferGetSize (`|contents|`). */
  datatype Buffer = Buffer(data: Handle, contents: seq<byte>)

  /** The slice `from_raw_parts(p, s)` a wrapper hands out, or None when the data pointer is null or the size is 0. */
  function BufferBytes(b: Buffer): (r: Option<seq<byte>>)
    ensures r == None <==> b.data == Null || |b.contents| == 0
    ensures r.Some? ==> r.value == b.contents
  {
    if b.data == Null || |b.contents| == 0 then None else Some(b.contents)
  }
}
