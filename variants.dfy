/**
 * The host engine's dynamically typed value (Godot's `Variant`) as far as the
 * database bridge uses it, and the fixed-width integer conversions that matter
 * when database integers are stored into it.
 */
module Variants {

  import opened Wrappers

  const INT32_MIN: int := -0x8000_0000
  const INT32_MAX: int := 0x7FFF_FFFF
  const INT64_MIN: int := -0x8000_0000_0000_0000
  const INT64_MAX: int := 0x7FFF_FFFF_FFFF_FFFF
  const TWO_32: int := 0x1_0000_0000
  const TWO_64: int := 0x1_0000_0000_0000_0000

  type Int32 = x: int | INT32_MIN <= x <= INT32_MAX
  type Int64 = x: int | INT64_MIN <= x <= INT64_MAX

  /** The two's-complement reading of the low 64 bits of `x` (a cast to int64_t). */
  function WrapInt64(x: int): (r: Int64)
    ensures (r - x) % TWO_64 == 0
    ensures INT64_MIN <= x <= INT64_MAX ==> r == x
  {
    var m := x % TWO_64;
    if m > INT64_MAX then m - TWO_64 else m
  }

  /** The two's-complement reading of the low 32 bits of `x` (a cast to int32_t). */
  function WrapInt32(x: int): (r: Int32)
    ensures (r - x) % TWO_32 == 0
    ensures INT32_MIN <= x <= INT32_MAX ==> r == x
  {
    var m := x % TWO_32;
    if m > INT32_MAX then m - TWO_32 else m
  }

  /** A double-precision number, carried as its bit pattern and never interpreted. */
  datatype Double = Double(bits: bv64)

  /** Identifiers of host objects (callback receivers). */
  type ObjectId = nat

  /**
   * Godot 3 variant type numbers that have no constructor of their own in
   * this model (vectors, colours, node paths, packed arrays, ...).
   */
  type OtherTypeId = t: nat | 5 <= t <= 16 || 20 <= t <= 26 witness 5

  /** A host value. `Int` holds a 64-bit signed integer, as the host does. */
  datatype Variant =
    | Nil
    | Bool(b: bool)
    | Int(i: Int64)
    | Real(d: Double)
    | Str(s: string)
    | Obj(id: ObjectId)
    | Dict(entries: map<string, Variant>)
    | Arr(items: seq<Variant>)
    | Other(typeId: OtherTypeId)

  /** The host's type number of a value, as `Variant::get_type()` reports it. */
  function TypeId(v: Variant): (t: nat)
    ensures t < 27
    ensures v.Other? <==> (5 <= t <= 16 || 20 <= t <= 26)
  {
    match v
    case Nil => 0
    case Bool(_) => 1
    case Int(_) => 2
    case Real(_) => 3
    case Str(_) => 4
    case Obj(_) => 17
    case Dict(_) => 18
    case Arr(_) => 19
    case Other(t) => t
  }

  /** An `Object *` argument read from a value: only an object reference is non-null. */
  function AsObject(v: Variant): Option<ObjectId>
  {
    if v.Obj? then Some(v.id) else None
  }

  /** A `String` argument read from a value (non-strings read as the empty string). */
  function AsString(v: Variant): string
  {
    if v.Str? then v.s else ""
  }

  /** An `Array` argument read from a value (non-arrays read as the empty array). */
  function AsArray(v: Variant): seq<Variant>
  {
    if v.Arr? then v.items else []
  }

  /** The value that passes an `Object *` (null or not) as an argument. */
  function ObjectValue(target: Option<ObjectId>): (v: Variant)
    ensures AsObject(v) == target
  {
    match target
    case None => Nil
    case Some(id) => Obj(id)
  }
}
