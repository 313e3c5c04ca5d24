/**
 * The lenient field decoders of the corporate-card client (ramp/src/utils.rs).
 *
 * Each nullable decoder has two layers: a strict visitor that accepts or
 * rejects one wire value, and an outer wrapper that replaces any rejection by
 * the type's default (`unwrap_or_default`), so that a field never fails to
 * decode. The wire value is what the JSON layer hands to the visitor.
 */
module RampUtils {
  import opened RustInts
  import opened Wrappers

  /** One loosely typed JSON value as delivered to a visitor. */
  datatype WireValue =
    | Null                      // JSON null (serde's `visit_unit`)
    | Bool(boolean: bool)
    | Str(text: string)
    | I8(int8: Int8)
    | I16(int16: Int16)
    | I32(int32: Int32)
    | I64(int64: Int64)
    | U64(uint64: UInt64)       // u8, u16 and u32 are forwarded here by serde's defaults
    | Float                     // a floating-point number; its value plays no part here
    | Array                     // a JSON array; its elements play no part here
    | Object                    // a JSON object; its members play no part here

  /** Why a visitor rejected a value. */
  datatype DecodeError =
    | InvalidType               // the visitor has no method for this kind of value
    | InvalidValue(text: string)  // a string that is not a boolean
    | OutOfRange(value: int)    // an i64 outside the i32 range

  datatype Result<+T> = Ok(value: T) | Err(error: DecodeError) {

    /** Rust's `unwrap_or_default`, with the default spelled out. */
    function OrDefault(default: T): (r: T)
      ensures Ok? ==> r == value
      ensures Err? ==> r == default
    {
      match this
      case Ok(v) => v
      case Err(_) => default
    }
  }

  // ---------------------------------------------------------------- strings

  /** String's own visitor: only string values are accepted. */
  function StringVisit(v: WireValue): (r: Result<string>)
    ensures r.Ok? <==> v.Str?
    ensures r.Ok? ==> r.value == v.text
  {
    if v.Str? then Ok(v.text) else Err(InvalidType)
  }

  /** `deserialize_null_string`: a string passes through unchanged, anything else becomes "". */
  function DeserializeNullString(v: WireValue): (s: string)
    ensures v.Str? ==> s == v.text
    ensures !v.Str? ==> s == ""
  {
    StringVisit(v).OrDefault("")
  }

  // --------------------------------------------------------------- booleans

  /** Rust's `bool::from_str`: exactly "true" and "false", case-sensitive. */
  function ParseBool(s: string): (r: Result<bool>)
    ensures r.Ok? <==> s == "true" || s == "false"
    ensures r.Ok? ==> (r.value <==> s == "true")
    ensures r.Err? ==> r.error == InvalidValue(s)
  {
    if s == "true" then Ok(true)
    else if s == "false" then Ok(false)
    else Err(InvalidValue(s))
  }

  /** `BoolVisitor`: native booleans pass through, strings are parsed, every other kind is rejected. */
  function BoolVisit(v: WireValue): (r: Result<bool>)
    ensures v.Bool? ==> r == Ok(v.boolean)
    ensures v.Str? ==> (r.Ok? <==> v.text == "true" || v.text == "false")
    ensures v.Str? && r.Ok? ==> (r.value <==> v.text == "true")
    ensures !v.Bool? && !v.Str? ==> r == Err(InvalidType)
  {
    match v
    case Bool(b) => Ok(b)
    case Str(s) => ParseBool(s)
    case _ => Err(InvalidType)
  }

  /** `deserialize_null_boolean`: true exactly for the boolean true and the string "true". */
  function DeserializeNullBoolean(v: WireValue): (b: bool)
    ensures b <==> v == Bool(true) || v == Str("true")
  {
    BoolVisit(v).OrDefault(false)
  }

  // ------------------------------------------------------------ 32-bit ints

  /** `I32Visitor`: narrower signed ints are exact, i64 is range-checked, u64 is cast unchecked. */
  function I32Visit(v: WireValue): (r: Result<Int32>)
    ensures v.I8? ==> r == Ok(v.int8)
    ensures v.I16? ==> r == Ok(v.int16)
    ensures v.I32? ==> r == Ok(v.int32)
    ensures v.I64? ==> (r.Ok? <==> I32_MIN <= v.int64 <= I32_MAX)
    ensures v.I64? && r.Ok? ==> r.value == v.int64
    ensures v.I64? && r.Err? ==> r.error == OutOfRange(v.int64)
    ensures v.U64? ==> r.Ok? && (r.value - v.uint64) % TWO_32 == 0
    ensures !(v.I8? || v.I16? || v.I32? || v.I64? || v.U64?) ==> r == Err(InvalidType)
  {
    match v
    case I8(x) => Ok(x as Int32)
    case I16(x) => Ok(x as Int32)
    case I32(x) => Ok(x)
    case I64(x) =>
      if I32_MIN <= x <= I32_MAX then Ok(x as Int32) else Err(OutOfRange(x))
    case U64(x) => Ok(AsI32(x))
    case _ => Err(InvalidType)
  }

  /** `deserialize_null_i32`: the visited value, or 0 when the visitor rejects. */
  function DeserializeNullI32(v: WireValue): (n: Int32)
    ensures v.I8? ==> n == v.int8
    ensures v.I16? ==> n == v.int16
    ensures v.I32? ==> n == v.int32
    ensures v.I64? ==> n == if I32_MIN <= v.int64 <= I32_MAX then v.int64 else 0
    ensures v.U64? ==> (n - v.uint64) % TWO_32 == 0
    ensures !(v.I8? || v.I16? || v.I32? || v.I64? || v.U64?) ==> n == 0
  {
    I32Visit(v).OrDefault(0)
  }

  /** A u64 reaches the i32 decoder without any range check: its low 32 bits, read signed. */
  lemma {:induction false} U64ToI32Unchecked(u: UInt64)
    ensures u <= I32_MAX ==> DeserializeNullI32(U64(u)) == u
    ensures DeserializeNullI32(U64(0x8000_0000)) == I32_MIN
    ensures DeserializeNullI32(U64(TWO_32)) == 0
    ensures DeserializeNullI32(U64(u)) == AsI32(u)
  {
    AsI32Unique(u, DeserializeNullI32(U64(u)));
    AsI32Unique(0x8000_0000, DeserializeNullI32(U64(0x8000_0000)));
    AsI32Unique(TWO_32, DeserializeNullI32(U64(TWO_32)));
  }

  // ------------------------------------------------------------ 64-bit ints

  /** `I64Visitor`: every signed int is widened exactly, u64 is reinterpreted bit for bit. */
  function I64Visit(v: WireValue): (r: Result<Int64>)
    ensures v.I8? ==> r == Ok(v.int8)
    ensures v.I16? ==> r == Ok(v.int16)
    ensures v.I32? ==> r == Ok(v.int32)
    ensures v.I64? ==> r == Ok(v.int64)
    ensures v.U64? ==> r.Ok? && (r.value - v.uint64) % TWO_64 == 0
    ensures !(v.I8? || v.I16? || v.I32? || v.I64? || v.U64?) ==> r == Err(InvalidType)
  {
    match v
    case I8(x) => Ok(x as Int64)
    case I16(x) => Ok(x as Int64)
    case I32(x) => Ok(x as Int64)
    case I64(x) => Ok(x)
    case U64(x) => Ok(AsI64(x))
    case _ => Err(InvalidType)
  }

  /** `deserialize_null_i64`: the visited value, or 0 when the visitor rejects. */
  function DeserializeNullI64(v: WireValue): (n: Int64)
    ensures v.I8? ==> n == v.int8
    ensures v.I16? ==> n == v.int16
    ensures v.I32? ==> n == v.int32
    ensures v.I64? ==> n == v.int64
    ensures v.U64? ==> (n - v.uint64) % TWO_64 == 0
    ensures !(v.I8? || v.I16? || v.I32? || v.I64? || v.U64?) ==> n == 0
  {
    I64Visit(v).OrDefault(0)
  }

  /** A u64 above i64::MAX becomes `u - 2^64`: negative, so neither 0 nor saturated at i64::MAX. */
  lemma {:induction false} U64ToI64Reinterprets(u: UInt64)
    ensures u <= I64_MAX ==> DeserializeNullI64(U64(u)) == u
    ensures u > I64_MAX ==> DeserializeNullI64(U64(u)) == u - TWO_64
    ensures u > I64_MAX ==> DeserializeNullI64(U64(u)) < 0
  {
    AsI64Unique(u, DeserializeNullI64(U64(u)));
  }

  // ------------------------------------------------------- zero predicates

  /** `zero_i32`: the test-for-default used to omit a field when serialising. */
  predicate ZeroI32(n: Int32): (z: bool)
    ensures z <==> n == DeserializeNullI32(Null)
  {
    n == 0
  }

  /** `zero_i64`: the test-for-default used to omit a field when serialising. */
  predicate ZeroI64(n: Int64): (z: bool)
    ensures z <==> n == DeserializeNullI64(Null)
  {
    n == 0
  }

  /** After a decode, the zero test holds exactly when the visitor rejected the value or the value was 0. */
  lemma ZeroAfterDecode(v: WireValue)
    ensures ZeroI32(DeserializeNullI32(v)) <==> I32Visit(v).Err? || I32Visit(v).value == 0
    ensures ZeroI64(DeserializeNullI64(v)) <==> I64Visit(v).Err? || I64Visit(v).value == 0
    ensures v.Null? || v.Str? ==> ZeroI32(DeserializeNullI32(v)) && ZeroI64(DeserializeNullI64(v))
  {
  }

  // ------------------------------------------ round trip through the wire

  /** How a JSON integer reaches a visitor: non-negative ones as u64, negative ones as i64. */
  function JsonInteger(n: Int64): (v: WireValue)
    ensures v.U64? || v.I64?
  {
    if n >= 0 then U64(n) else I64(n)
  }

  /** A field serialised with "omit if zero": absent (None) when the zero test holds. */
  function OmitIfZeroI32(n: Int32): Option<WireValue> {
    if ZeroI32(n) then None else Some(JsonInteger(n))
  }

  /** A field serialised with "omit if zero": absent (None) when the zero test holds. */
  function OmitIfZeroI64(n: Int64): Option<WireValue> {
    if ZeroI64(n) then None else Some(JsonInteger(n))
  }

  /** A nullable field read back: an absent field takes the default, a present one the lenient decode. */
  function ReadI32Field(f: Option<WireValue>): Int32 {
    match f
    case None => 0
    case Some(v) => DeserializeNullI32(v)
  }

  function ReadI64Field(f: Option<WireValue>): Int64 {
    match f
    case None => 0
    case Some(v) => DeserializeNullI64(v)
  }

  /** Every i32 survives serialising with "omit if zero" and decoding back. */
  lemma {:induction false} I32FieldRoundTrip(n: Int32)
    ensures ReadI32Field(OmitIfZeroI32(n)) == n
    ensures ZeroI32(n) <==> OmitIfZeroI32(n) == None
  {
    if n > 0 {
      AsI32Unique(n, DeserializeNullI32(U64(n)));
    }
  }

  /** Every i64 survives serialising with "omit if zero" and decoding back. */
  lemma {:induction false} I64FieldRoundTrip(n: Int64)
    ensures ReadI64Field(OmitIfZeroI64(n)) == n
    ensures ZeroI64(n) <==> OmitIfZeroI64(n) == None
  {
    if n > 0 {
      AsI64Unique(n, DeserializeNullI64(U64(n)));
    }
  }

  /** Every string and boolean survives encoding and decoding back. */
  lemma ScalarRoundTrip(s: string, b: bool)
    ensures DeserializeNullString(Str(s)) == s
    ensures DeserializeNullBoolean(Bool(b)) == b
    ensures DeserializeNullBoolean(Str(if b then "true" else "false")) == b
  {
  }
}
