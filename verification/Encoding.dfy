/**
 How a configuration value becomes the 32-bit value on the wire, checked against the type
 and the firmware's range.
 */
module Encoding {
  import opened Options
  import opened LittleEndian
  import opened Registry

  /** A scalar as a parsed document holds it; Other is anything that is no scalar. */
  datatype Value = Bool(b: bool) | Number(x: real) | Text(s: string) | Other

  /** What is computed elsewhere: reading text, the names of enumerators and variables, and
      the bit pattern of a single-precision number. */
  datatype Env = Env(
    parseBool: string -> Option<bool>,
    parseInt: string -> Option<int>,
    parseFloat: string -> Option<real>,
    enumValue: (string, string) -> Option<uint32>,
    varIndex: string -> Option<uint16>,
    varMapSize: nat,
    floatBits: real -> uint32)

  function ToBool(e: Env, v: Value): Option<bool> {
    match v
    case Bool(b) => Some(b)
    case Number(x) => Some(x != 0.0)
    case Text(s) => e.parseBool(s)
    case Other => None
  }

  function ToInt(e: Env, v: Value): Option<int> {
    match v
    case Bool(b) => Some(if b then 1 else 0)
    case Number(x) => if x == x.Floor as real then Some(x.Floor) else None
    case Text(s) => e.parseInt(s)
    case Other => None
  }

  function ToFloat(e: Env, v: Value): Option<real> {
    match v
    case Number(x) => Some(x)
    case Text(s) => e.parseFloat(s)
    case _ => None
  }

  predicate InRange(f: Field, x: real) { f.min <= x <= f.max }

  function Width(k: Kind): int {
    if k == TU8 then 0xFF else if k == TU16 then 0xFFFF else 0xFFFF_FFFF
  }

  /** The wire value, or nothing if the value is refused. */
  function Encode(e: Env, f: Field, v: Value): Option<uint32> {
    match f.kind
    case TBool =>
      var b := ToBool(e, v);
      if b.None? then None else Some(if b.value then 1 else 0)
    case TFloat =>
      var x := ToFloat(e, v);
      if x.None? || !InRange(f, x.value) then None else Some(e.floatBits(x.value))
    case TI8 =>
      var n := ToInt(e, v);
      if n.None? || n.value < -128 || n.value > 127 || !InRange(f, n.value as real) then None
      else Some(n.value % 0x1_0000_0000)
    case TEnum(enum) =>
      var n := if v.Text? then EnumNumber(e, enum, v.s) else ToInt(e, v);
      if n.None? || n.value < 0 || (!v.Text? && n.value > 0xFF) || !InRange(f, n.value as real) then None
      else Some(n.value % 0x1_0000_0000)
    case TVarMap =>
      if v.Text? then
        var i := e.varIndex(v.s);
        if i.None? then None else Some(i.value)
      else
        var n := ToInt(e, v);
        if n.None? || n.value < 0 || n.value >= e.varMapSize then None else Some(n.value % 0x1_0000_0000)
    case _ =>
      var n := ToInt(e, v);
      if n.None? || n.value < 0 || n.value > Width(f.kind) || !InRange(f, n.value as real) then None else Some(n.value)
  }

  function EnumNumber(e: Env, enum: string, s: string): Option<int> {
    var n := e.enumValue(enum, s);
    if n.None? then None else Some(n.value)
  }
}
