/**
  The `PropVariant` structure (VolMixer/CoreAudio/Properties/PropVariant.cs): a
  16-bit type tag `vt` at offset 0 and, at offset 8, one 8-byte slot that every
  typed field overlays. The slot is modelled as its unsigned 64-bit content; each
  field is the little-endian reading of its own width (and signedness) of that
  slot. Memory a pointer refers to is outside the structure: reading a string or a
  GUID through the pointer is a function parameter.
*/
module PropVariants {
  import opened Wrappers

  // VarEnum tags the getter knows
  const VT_I2: int := 2
  const VT_I4: int := 3
  const VT_BOOL: int := 11
  const VT_I1: int := 16
  const VT_UI4: int := 19
  const VT_I8: int := 20
  const VT_UI8: int := 21
  const VT_INT: int := 22
  const VT_LPWSTR: int := 31
  const VT_CLSID: int := 72

  const TWO_8: int := 0x100
  const TWO_16: int := 0x1_0000
  const TWO_32: int := 0x1_0000_0000
  const TWO_64: int := 0x1_0000_0000_0000_0000

  type Short = x: int | -0x8000 <= x < 0x8000
  type Long = x: int | -0x8000_0000_0000_0000 <= x < 0x8000_0000_0000_0000
  type Word64 = x: int | 0 <= x < 0x1_0000_0000_0000_0000

  datatype PropVariant = PropVariant(vt: Short, slot: Word64)

  /** Two's-complement reading of an unsigned value `u` of the given width. */
  function Signed(u: int, modulus: int): (r: int)
    requires modulus >= 2 && modulus % 2 == 0 && 0 <= u < modulus
    ensures -(modulus / 2) <= r < modulus / 2
    ensures (r - u) % modulus == 0
  {
    if u < modulus / 2 then u else u - modulus
  }

  /** `(VarEnum)vt`: the 16-bit tag, sign-extended. */
  function DataType(pv: PropVariant): (r: int)
    ensures -0x8000 <= r < 0x8000 && (r - pv.vt) % TWO_16 == 0
  {
    pv.vt
  }

  // The fields overlaying the slot.

  /** `byte bVal`. */
  function BVal(pv: PropVariant): (r: int)
    ensures 0 <= r < TWO_8 && (r - pv.slot) % TWO_8 == 0
  {
    pv.slot % TWO_8
  }

  /** `short iVal`. */
  function IVal(pv: PropVariant): (r: Short)
    ensures (r - pv.slot) % TWO_16 == 0
  {
    Signed(pv.slot % TWO_16, TWO_16)
  }

  /** `int lVal`. */
  function LVal(pv: PropVariant): (r: int)
    ensures -0x8000_0000 <= r < 0x8000_0000 && (r - pv.slot) % TWO_32 == 0
  {
    Signed(pv.slot % TWO_32, TWO_32)
  }

  /** `uint ulVal`. */
  function ULVal(pv: PropVariant): (r: int)
    ensures 0 <= r < TWO_32 && (r - pv.slot) % TWO_32 == 0
  {
    pv.slot % TWO_32
  }

  /**
    `long hVal`. `uhVal` is declared `long` as well, and in a 64-bit process the
    `IntPtr pointerValue` spans the same eight bytes, so both read the same.
  */
  function HVal(pv: PropVariant): (r: Long)
    ensures (r - pv.slot) % TWO_64 == 0
  {
    Signed(pv.slot, TWO_64)
  }

  /** `bool boolVal`: its one byte, non-zero meaning true. */
  function BoolVal(pv: PropVariant): (r: bool)
    ensures r <==> pv.slot % TWO_8 != 0
  {
    BVal(pv) != 0
  }

  /** `FromLong(value)`: tag VT_I8 and the value in `hVal`. */
  function FromLong(value: Long): (r: PropVariant)
    ensures DataType(r) == VT_I8
  {
    PropVariant(VT_I8 as Short, value % TWO_64)
  }

  datatype Guid = Guid(bytes: seq<int>)

  /** The boxed object the `Value` getter returns. */
  datatype Value =
    | ByteValue(b: int)
    | ShortValue(s: int)
    | IntValue(i: int)
    | UIntValue(u: int)
    | LongValue(l: int)
    | BoolValue(flag: bool)
    | StringValue(text: string)
    | GuidValue(guid: Guid)

  /** The `NotSupportedException` of the getter, naming the tag. */
  datatype NotSupported = NotSupported(vt: int)

  /**
    The tags `IsSupported` accepts: plain scalar, string and GUID tags only, so no
    vector, array or by-reference variant (tag bits 0x1000 and up) is supported.
  */
  predicate IsSupported(pv: PropVariant)
    ensures IsSupported(pv) ==> 0 < DataType(pv) < 0x1000
  {
    DataType(pv) in {VT_I1, VT_I2, VT_I4, VT_I8, VT_INT, VT_UI4, VT_UI8, VT_BOOL, VT_LPWSTR, VT_CLSID}
  }

  /**
    The `Value` getter: the field the tag selects, or NotSupported for any other
    tag. `stringAt` and `guidAt` read the memory a pointer refers to.
  */
  function GetValue(pv: PropVariant, stringAt: int -> string, guidAt: int -> Guid): (r: Result<Value, NotSupported>)
    ensures r.Err? ==> r.error == NotSupported(DataType(pv))
  {
    var ve := DataType(pv);
    if ve == VT_I1 then Ok(ByteValue(BVal(pv)))
    else if ve == VT_I2 then Ok(ShortValue(IVal(pv)))
    else if ve == VT_I4 then Ok(IntValue(LVal(pv)))
    else if ve == VT_I8 then Ok(LongValue(HVal(pv)))
    else if ve == VT_INT then Ok(ShortValue(IVal(pv)))
    else if ve == VT_UI4 then Ok(UIntValue(ULVal(pv)))
    else if ve == VT_UI8 then Ok(LongValue(HVal(pv)))
    else if ve == VT_BOOL then Ok(BoolValue(BoolVal(pv)))
    else if ve == VT_LPWSTR then Ok(StringValue(stringAt(HVal(pv))))
    else if ve == VT_CLSID then Ok(GuidValue(guidAt(HVal(pv))))
    else Err(NotSupported(ve))
  }

  /** An argument of the setter: a string, or anything else (including null). */
  datatype Object = StringObject(text: string) | OtherObject

  /**
    The `Value` setter: only a string stored into a VT_LPWSTR variant changes it,
    and then only the pointer, which becomes `bstr`, the address the string was
    copied to.
  */
  function SetValue(pv: PropVariant, value: Object, bstr: Long): (r: PropVariant)
    ensures r.vt == pv.vt
    ensures value.StringObject? && DataType(pv) == VT_LPWSTR ==> HVal(r) == bstr
    ensures !(value.StringObject? && DataType(pv) == VT_LPWSTR) ==> r == pv
  {
    if value.StringObject? && DataType(pv) == VT_LPWSTR then
      SignedRoundTrip(bstr);
      pv.(slot := bstr % TWO_64)
    else pv
  }

  lemma SignedRoundTrip(x: Long)
    ensures Signed(x % TWO_64, TWO_64) == x
  {
  }

  /** The getter succeeds exactly for the tags `IsSupported` accepts. */
  lemma GetValueSupportedIff(pv: PropVariant, stringAt: int -> string, guidAt: int -> Guid)
    ensures GetValue(pv, stringAt, guidAt).Ok? <==> IsSupported(pv)
  {
  }

  /** A variant made by `FromLong` reads back the same long. */
  lemma FromLongRoundTrip(value: Long, stringAt: int -> string, guidAt: int -> Guid)
    ensures IsSupported(FromLong(value))
    ensures GetValue(FromLong(value), stringAt, guidAt) == Ok(LongValue(value))
  {
    SignedRoundTrip(value);
  }

  /** A string stored into a VT_LPWSTR variant reads back, given the copy is where `bstr` says. */
  lemma SetThenGetString(pv: PropVariant, s: string, bstr: Long, stringAt: int -> string, guidAt: int -> Guid)
    requires DataType(pv) == VT_LPWSTR && stringAt(bstr) == s
    ensures GetValue(SetValue(pv, StringObject(s), bstr), stringAt, guidAt) == Ok(StringValue(s))
  {
  }

  /** A variant whose tag is not supported is never changed by the setter. */
  lemma SetValueOnlyWritesStrings(pv: PropVariant, value: Object, bstr: Long)
    requires DataType(pv) != VT_LPWSTR
    ensures SetValue(pv, value, bstr) == pv
  {
  }

  /**
    VT_I1 is read through the unsigned byte field: a signed byte -1 (slot byte
    0xFF) reads as 255.
  */
  lemma SignedByteReadsUnsigned()
    ensures GetValue(PropVariant(VT_I1 as Short, 0xFF), _ => "", _ => Guid([])) == Ok(ByteValue(255))
  {
  }

  /**
    VT_INT is read through the 16-bit field: a 32-bit 65536 reads as 0, so only
    values in the short range survive.
  */
  lemma IntReadsSixteenBits(value: int, stringAt: int -> string, guidAt: int -> Guid)
    requires 0 <= value < 0x8000_0000
    ensures GetValue(PropVariant(VT_INT as Short, value), stringAt, guidAt) == Ok(ShortValue(Signed(value % TWO_16, TWO_16)))
    ensures GetValue(PropVariant(VT_INT as Short, value), stringAt, guidAt) == Ok(ShortValue(value)) <==> value < 0x8000
  {
  }

  /** VT_UI8 is read through a signed field: the largest unsigned value reads as -1. */
  lemma UnsignedLongReadsSigned(stringAt: int -> string, guidAt: int -> Guid)
    ensures GetValue(PropVariant(VT_UI8 as Short, TWO_64 - 1), stringAt, guidAt) == Ok(LongValue(-1))
  {
  }
}
