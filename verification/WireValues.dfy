/**
 What the 32-bit values on the wire mean: a value is encoded as raw exactly when raw, read
 back under the parameter's type, is the number the value stands for and lies within the
 type's width and the firmware's range; and a value read from a device is taken back by it.
 */
module WireValues {
  import opened Options
  import opened LittleEndian
  import opened Registry
  import opened Encoding

  /** The integer a value stands for. */
  predicate Stands(e: Env, v: Value, n: int) {
    || (v.Bool? && n == if v.b then 1 else 0)
    || (v.Number? && v.x == n as real)
    || (v.Text? && e.parseInt(v.s) == Some(n))
  }

  predicate StandsForTruth(e: Env, v: Value, b: bool) {
    || (v.Bool? && v.b == b)
    || (v.Number? && (v.x != 0.0) == b)
    || (v.Text? && e.parseBool(v.s) == Some(b))
  }

  predicate StandsForReal(e: Env, v: Value, x: real) {
    (v.Number? && v.x == x) || (v.Text? && e.parseFloat(v.s) == Some(x))
  }

  /** The 32-bit two's-complement number. */
  function Signed(raw: uint32): int { if raw < 0x8000_0000 then raw else raw - 0x1_0000_0000 }

  predicate Between(lo: real, n: int, hi: real) { lo <= n as real <= hi }

  /** An unsigned number is itself, within eight, sixteen or thirty-two bits. */
  lemma EncodesUnsigned(e: Env, f: Field, v: Value, raw: uint32)
    requires f.kind == TU8 || f.kind == TU16 || f.kind == TU32
    ensures Encode(e, f, v) == Some(raw) <==>
      && Stands(e, v, raw) && Between(f.min, raw, f.max)
      && (f.kind == TU8 ==> raw <= 255) && (f.kind == TU16 ==> raw <= 65535)
  {
  }

  /** A signed one is the 32-bit two's-complement number, within eight bits. */
  lemma EncodesSigned(e: Env, f: Field, v: Value, raw: uint32)
    requires f.kind == TI8
    ensures Encode(e, f, v) == Some(raw) <==>
      Stands(e, v, Signed(raw)) && -128 <= Signed(raw) <= 127 && Between(f.min, Signed(raw), f.max)
  {
  }

  lemma EncodesBool(e: Env, f: Field, v: Value, raw: uint32)
    requires f.kind == TBool
    ensures Encode(e, f, v) == Some(raw) <==>
      (raw == 1 && StandsForTruth(e, v, true)) || (raw == 0 && StandsForTruth(e, v, false))
  {
  }

  lemma EncodesFloat(e: Env, f: Field, v: Value, raw: uint32)
    requires f.kind == TFloat
    ensures Encode(e, f, v) == Some(raw) <==>
      exists x: real :: StandsForReal(e, v, x) && f.min <= x <= f.max && e.floatBits(x) == raw
  {
    if Encode(e, f, v) == Some(raw) { assert StandsForReal(e, v, ToFloat(e, v).value); }
  }

  /** An enumerator's name is its number; a number must have eight bits. Both must be in range. */
  lemma EncodesEnum(e: Env, f: Field, v: Value, enum: string, raw: uint32)
    requires f.kind == TEnum(enum)
    ensures Encode(e, f, v) == Some(raw) <==>
      && Between(f.min, raw, f.max)
      && if v.Text? then e.enumValue(enum, v.s) == Some(raw) else Stands(e, v, raw) && raw <= 255
  {
  }

  /** A variable's name is its index; a number must be an index. */
  lemma EncodesVariable(e: Env, f: Field, v: Value, raw: uint32)
    requires f.kind == TVarMap && e.varMapSize <= 0x1_0000_0000
    ensures Encode(e, f, v) == Some(raw) <==>
      if v.Text? then raw < 0x1_0000 && e.varIndex(v.s) == Some(raw) else Stands(e, v, raw) && raw < e.varMapSize
  {
  }

  // ----- reading back

  /** What reading a value needs besides: names by number, and the number of a bit pattern. */
  datatype Names = Names(enumName: (string, uint32) -> string, varName: uint16 -> string, floatOf: uint32 -> real)

  /** The value shown for a raw one; where there is no name, the number. */
  function Decode(ns: Names, f: Field, raw: uint32): Value {
    match f.kind
    case TBool => Bool(raw != 0)
    case TI8 => Number((if raw % 256 < 128 then raw % 256 else raw % 256 - 256) as real)
    case TFloat => Number(ns.floatOf(raw))
    case TEnum(enum) => NamedOr(ns.enumName(enum, raw), raw)
    case TVarMap => NamedOr(ns.varName(raw % 0x1_0000), raw)
    case _ => Number(raw as real)
  }

  function NamedOr(name: string, raw: uint32): Value { if name == "" then Number(raw as real) else Text(name) }

  /** Names and numbers belong together: every number that has a name is given it, and every
      name given is that number's. */
  ghost predicate Inverse(e: Env, ns: Names) {
    && (forall enum, s, raw: uint32 | e.enumValue(enum, s) == Some(raw) :: ns.enumName(enum, raw) != "")
    && (forall enum, raw: uint32 | ns.enumName(enum, raw) != "" ::
          e.enumValue(enum, ns.enumName(enum, raw)) == Some(raw))
    && (forall s, i: uint16 | e.varIndex(s) == Some(i) :: ns.varName(i) != "")
    && (forall i: uint16 | ns.varName(i) != "" :: e.varIndex(ns.varName(i)) == Some(i))
  }

  /** What was written and is read back is taken again and is the same; of a float exactly if
      the number read back is in range and has the same bits. */
  lemma ReadBack(e: Env, ns: Names, f: Field, v: Value, raw: uint32)
    requires Inverse(e, ns) && e.varMapSize <= 0x1_0000 && Encode(e, f, v) == Some(raw)
    ensures !f.kind.TFloat? ==> Encode(e, f, Decode(ns, f, raw)) == Some(raw)
    ensures f.kind.TFloat? ==> (Encode(e, f, Decode(ns, f, raw)) == Some(raw) <==>
      f.min <= ns.floatOf(raw) <= f.max && e.floatBits(ns.floatOf(raw)) == raw)
  {
    match f.kind
    case TVarMap =>
      EncodesVariable(e, f, v, raw);
      NamedVariable(e, f, ns.varName(raw), raw);
    case TEnum(enum) =>
      EncodesEnum(e, f, v, enum, raw);
      NamedEnum(e, f, enum, ns.enumName(enum, raw), raw);
    case _ => PlainBack(e, ns, f, v, raw);
  }

  lemma PlainBack(e: Env, ns: Names, f: Field, v: Value, raw: uint32)
    requires !f.kind.TVarMap? && !f.kind.TEnum? && Encode(e, f, v) == Some(raw)
    ensures !f.kind.TFloat? ==> Encode(e, f, Decode(ns, f, raw)) == Some(raw)
    ensures f.kind.TFloat? ==> (Encode(e, f, Decode(ns, f, raw)) == Some(raw) <==>
      f.min <= ns.floatOf(raw) <= f.max && e.floatBits(ns.floatOf(raw)) == raw)
  {
    if f.kind.TI8? {
      EncodesSigned(e, f, v, raw);
      SignedBack(raw);
    }
  }

  lemma SignedBack(raw: uint32)
    requires -128 <= Signed(raw) <= 127
    ensures (if raw % 256 < 128 then raw % 256 else raw % 256 - 256) == Signed(raw)
  {
  }

  lemma NamedVariable(e: Env, f: Field, name: string, raw: uint16)
    requires f.kind == TVarMap && e.varMapSize <= 0x1_0000
    requires if name == "" then raw < e.varMapSize else e.varIndex(name) == Some(raw)
    ensures Encode(e, f, NamedOr(name, raw)) == Some(raw)
  {
    EncodesVariable(e, f, NamedOr(name, raw), raw);
  }

  lemma NamedEnum(e: Env, f: Field, enum: string, name: string, raw: uint32)
    requires f.kind == TEnum(enum) && Between(f.min, raw, f.max)
    requires if name == "" then raw <= 255 else e.enumValue(enum, name) == Some(raw)
    ensures Encode(e, f, NamedOr(name, raw)) == Some(raw)
  {
    EncodesEnum(e, f, NamedOr(name, raw), enum, raw);
  }
}
