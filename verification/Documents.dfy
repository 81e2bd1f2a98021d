/**
 Reading a configuration document: which scalars it supplies, for which index and subindex,
 in the order in which they are collected.
 */
module Documents {
  import opened Encoding
  import opened Projection

  /** A parsed document. A field that is absent counts as null. */
  datatype Json = Null | Scalar(v: Value) | List(vs: seq<Json>) | Object(fields: map<string, Json>)

  type Fields = map<string, Json>

  function Get(m: Fields, name: string): Json { if name in m then m[name] else Null }

  /** What becomes of a supplied value: anything that is no scalar cannot be encoded. */
  function ValueOf(j: Json): Value { if j.Scalar? then j.v else Other }

  // ----- the field tables

  /** A field of an object and its subindex, or an array and its first subindex. */
  datatype Entry = Field(name: string, sub: nat) | Array(name: string, sub: nat)

  const DEVICE := [
    Field("baseId", 0), Field("bitrate", 1), Field("sleepEnabled", 2), Field("filtersEnabled", 3),
    Field("connectUsbToCan", 4)]

  const OUTPUT := [
    Field("enabled", 0), Field("input", 1), Field("currentLimit", 2), Field("inrushCurrentLimit", 3),
    Field("inrushTime", 4), Field("resetMode", 5), Field("resetTime", 6), Field("resetCountLimit", 7),
    Field("pwmEnabled", 8), Field("softStartEnabled", 9), Field("variableDutyCycle", 10), Field("dutyCycleInput", 11),
    Field("fixedDutyCycle", 12), Field("frequency", 13), Field("softStartRampTime", 14),
    Field("dutyCycleDenominator", 15), Field("minDutyCycle", 16), Field("primaryOutput", 17)]

  const INPUT := [
    Field("enabled", 0), Field("mode", 1), Field("invert", 2), Field("debounceTime", 3), Field("pull", 4)]

  const CAN_INPUT := [
    Field("enabled", 0), Field("timeoutEnabled", 1), Field("timeout", 2), Field("ide", 3), Field("id", 4),
    Field("startBit", 5), Field("bitLength", 6), Field("factor", 7), Field("offset", 8), Field("byteOrder", 9),
    Field("signed", 10), Field("operator", 11), Field("operand", 12), Field("mode", 13)]

  const CAN_OUTPUT := [
    Field("enabled", 0), Field("input", 1), Field("ide", 2), Field("id", 3), Field("startBit", 4),
    Field("bitLength", 5), Field("factor", 6), Field("offset", 7), Field("byteOrder", 8), Field("signed", 9),
    Field("interval", 10)]

  const VIRTUAL_INPUT := [
    Field("enabled", 0), Field("not0", 1), Field("var0", 2), Field("cond0", 3), Field("not1", 4), Field("var1", 5),
    Field("cond1", 6), Field("not2", 7), Field("var2", 8), Field("mode", 9)]

  const CONDITION := [Field("enabled", 0), Field("input", 1), Field("operator", 2), Field("arg", 3)]

  const COUNTER := [
    Field("enabled", 0), Field("incInput", 1), Field("decInput", 2), Field("resetInput", 3), Field("minCount", 4),
    Field("maxCount", 5), Field("incEdge", 6), Field("decEdge", 7), Field("resetEdge", 8), Field("wrapAround", 9),
    Field("holdToReset", 10), Field("resetTime", 11)]

  const FLASHER := [
    Field("enabled", 0), Field("input", 1), Field("onTime", 2), Field("offTime", 3), Field("single", 4)]

  const WIPER := [
    Field("enabled", 0), Field("mode", 1), Field("slowInput", 2), Field("fastInput", 3), Field("interInput", 4),
    Field("onInput", 5), Field("speedInput", 6), Field("parkInput", 7), Field("parkStopLevel", 8),
    Field("swipeInput", 9), Field("washInput", 10), Field("washWipeCycles", 11), Array("speedMap", 12),
    Array("intermitTime", 20)]

  const STARTER := [Field("enabled", 0), Field("input", 1), Array("outputsDisabled", 2)]

  const KEYPAD := [
    Field("enabled", 0), Field("id", 1), Field("timeoutEnabled", 2), Field("timeout", 3), Field("model", 4),
    Field("backlightBrightness", 5), Field("dimBacklightBrightness", 6), Field("backlightButtonColor", 7),
    Field("dimmingVar", 8), Field("buttonBrightness", 9), Field("dimButtonBrightness", 10)]

  const BUTTON := [
    Field("enabled", 0), Field("mode", 1), Field("faultColor", 6), Field("faultVar", 11), Field("faultBlink", 16),
    Field("faultBlinkColor", 21), Array("valColors", 2), Array("valVars", 7), Array("valBlink", 12),
    Array("blinkColors", 17)]

  const DIAL := [Field("enabled", 0), Field("minCount", 1), Field("maxCount", 2), Field("ledOffset", 3)]

  /** Arrays of objects, each at its index from the base. */
  datatype Group = Group(name: string, base: nat, entries: seq<Entry>)

  const GROUPS := [
    Group("outputs", 0x1000, OUTPUT), Group("inputs", 0x1200, INPUT), Group("canInputs", 0x1300, CAN_INPUT),
    Group("canOutputs", 0x2000, CAN_OUTPUT), Group("virtualInputs", 0x1400, VIRTUAL_INPUT),
    Group("conditions", 0x1500, CONDITION), Group("counters", 0x1600, COUNTER), Group("flashers", 0x1700, FLASHER)]

  /** All of them. */
  datatype Tables = Tables(
    device: seq<Entry>,
    groups: seq<Group>,
    wiper: seq<Entry>,
    starter: seq<Entry>,
    keypad: seq<Entry>,
    button: seq<Entry>,
    dial: seq<Entry>)

  const TABLES := Tables(DEVICE, GROUPS, WIPER, STARTER, KEYPAD, BUTTON, DIAL)

  // ----- what a document supplies

  /** Indices are sixteen bits wide, subindices eight. */
  function Slot(index: nat, sub: nat): nat { index % 0x1_0000 * 256 + sub % 256 }

  /** The values collected so far, and one more. Of two values for one key the later one stays. */
  function WithOne(vals: Values, index: nat, sub: nat, j: Json): Values {
    if j.Null? then vals else vals[Slot(index, sub) := ValueOf(j)]
  }

  function Elements(j: Json): seq<Json> { if j.List? then j.vs else [] }

  /** With the first n elements, each at the next subindex. */
  function WithMany(vals: Values, index: nat, sub: nat, vs: seq<Json>, n: nat): Values
    requires n <= |vs|
  {
    if n == 0 then vals else WithOne(WithMany(vals, index, sub, vs, n - 1), index, sub + n - 1, vs[n - 1])
  }

  function WithEntry(vals: Values, index: nat, m: Fields, e: Entry): Values {
    match e
    case Field(name, sub) => WithOne(vals, index, sub, Get(m, name))
    case Array(name, sub) => WithMany(vals, index, sub, Elements(Get(m, name)), |Elements(Get(m, name))|)
  }

  /** With the first n entries of one object. */
  function WithObject(vals: Values, index: nat, m: Fields, es: seq<Entry>, n: nat): Values
    requires n <= |es|
  {
    if n == 0 then vals else WithEntry(WithObject(vals, index, m, es, n - 1), index, m, es[n - 1])
  }

  function Objects(j: Json): (ms: seq<Fields>)
    ensures |ms| == |Elements(j)|
  {
    var vs := Elements(j);
    seq(|vs|, i requires 0 <= i < |vs| => if vs[i].Object? then vs[i].fields else map[])
  }

  /** With the first n objects of a list, each at the next index. */
  function WithList(vals: Values, base: nat, ms: seq<Fields>, es: seq<Entry>, n: nat): Values
    requires n <= |ms|
  {
    if n == 0 then vals else WithObject(WithList(vals, base, ms, es, n - 1), base + n - 1, ms[n - 1], es, |es|)
  }

  function WithGroup(vals: Values, m: Fields, g: Group): Values {
    var ms := Objects(Get(m, g.name));
    WithList(vals, g.base, ms, g.entries, |ms|)
  }

  function WithGroups(vals: Values, m: Fields, gs: seq<Group>, n: nat): Values
    requires n <= |gs|
  {
    if n == 0 then vals else WithGroup(WithGroups(vals, m, gs, n - 1), m, gs[n - 1])
  }

  function WithSingle(vals: Values, j: Json, index: nat, es: seq<Entry>): Values {
    if j.Object? then WithObject(vals, index, j.fields, es, |es|) else vals
  }

  function Buttons(k: nat, t: Tables): Group { Group("buttons", 0x3100 + k * 32, t.button) }

  function Dials(k: nat, t: Tables): Group { Group("dials", 0x3200 + k * 4, t.dial) }

  /** With a keypad, its buttons and its dials. */
  function WithKeypad(vals: Values, k: nat, m: Fields, t: Tables): Values {
    WithGroup(WithGroup(WithObject(vals, 0x3000 + k, m, t.keypad, |t.keypad|), m, Buttons(k, t)), m, Dials(k, t))
  }

  function WithKeypads(vals: Values, ms: seq<Fields>, t: Tables, n: nat): Values
    requires n <= |ms|
  {
    if n == 0 then vals else WithKeypad(WithKeypads(vals, ms, t, n - 1), n - 1, ms[n - 1], t)
  }

  function WithPads(vals: Values, j: Json, t: Tables): Values { WithKeypads(vals, Objects(j), t, |Objects(j)|) }

  /** The device's own fields and the groups. */
  function WithBlocks(m: Fields, t: Tables): Values {
    WithGroups(WithObject(map[], 0, m, t.device, |t.device|), m, t.groups, |t.groups|)
  }

  /** Everything a document supplies. */
  function Supplied(m: Fields, t: Tables): Values {
    WithPads(WithSingle(WithSingle(WithBlocks(m, t), Get(m, "wipers"), 0x1900, t.wiper), Get(m, "starterDisable"),
      0x1800, t.starter), Get(m, "keypads"), t)
  }

  // ----- documents of the wrong shape

  predicate GoodEntry(m: Fields, e: Entry) { e.Array? ==> Get(m, e.name).Null? || Get(m, e.name).List? }

  predicate GoodObject(m: Fields, es: seq<Entry>) { forall i | 0 <= i < |es| :: GoodEntry(m, es[i]) }

  predicate ObjectOrNull(j: Json) { j.Null? || j.Object? }

  predicate ListOfObjects(j: Json) { j.Null? || (j.List? && forall v | v in j.vs :: ObjectOrNull(v)) }

  predicate GoodList(ms: seq<Fields>, es: seq<Entry>) { forall i | 0 <= i < |ms| :: GoodObject(ms[i], es) }

  predicate GoodGroup(m: Fields, g: Group) {
    ListOfObjects(Get(m, g.name)) && GoodList(Objects(Get(m, g.name)), g.entries)
  }

  predicate GoodGroups(m: Fields, gs: seq<Group>) { forall i | 0 <= i < |gs| :: GoodGroup(m, gs[i]) }

  predicate GoodSingle(j: Json, es: seq<Entry>) { ObjectOrNull(j) && (j.Object? ==> GoodObject(j.fields, es)) }

  predicate GoodKeypad(k: nat, m: Fields, t: Tables) {
    GoodObject(m, t.keypad) && GoodGroup(m, Buttons(k, t)) && GoodGroup(m, Dials(k, t))
  }

  /** The first n of them. */
  predicate GoodKeypads(ms: seq<Fields>, t: Tables, n: nat)
    requires n <= |ms|
  {
    forall k | 0 <= k < n :: GoodKeypad(k, ms[k], t)
  }

  lemma NextKeypad(ms: seq<Fields>, t: Tables, n: nat)
    requires n < |ms|
    ensures GoodKeypads(ms, t, n + 1) == (GoodKeypads(ms, t, n) && GoodKeypad(n, ms[n], t))
    ensures !GoodKeypad(n, ms[n], t) ==> !GoodKeypads(ms, t, |ms|)
  {
  }

  predicate GoodPads(j: Json, t: Tables) {
    ListOfObjects(j) && GoodKeypads(Objects(j), t, |Objects(j)|)
  }

  /** Arrays and objects are where they are expected. */
  predicate Good(m: Fields, t: Tables) {
    && GoodObject(m, t.device) && GoodGroups(m, t.groups) && GoodSingle(Get(m, "wipers"), t.wiper)
    && GoodSingle(Get(m, "starterDisable"), t.starter) && GoodPads(Get(m, "keypads"), t)
  }

  // ----- the loops

  /** Collects what a document supplies; each step fails exactly if its part of the document
      has the wrong shape. */
  class Collector {
    var vals: Values

    constructor ()
      ensures vals == map[]
    {
      vals := map[];
    }

    method CollectOne(index: nat, sub: nat, j: Json)
      modifies this
      ensures vals == WithOne(old(vals), index, sub, j)
    {
      if !j.Null? {
        vals := vals[Slot(index, sub) := ValueOf(j)];
      }
    }

    method CollectArray(m: Fields, name: string, index: nat, sub: nat) returns (ok: bool)
      modifies this
      ensures ok == GoodEntry(m, Array(name, sub))
      ensures ok ==> vals == WithEntry(old(vals), index, m, Array(name, sub))
    {
      var j := Get(m, name);
      if !j.Null? && !j.List? {
        return false;
      }
      var vs := Elements(j);
      var i := 0;
      while i < |vs|
        invariant 0 <= i <= |vs|
        invariant vals == WithMany(old(vals), index, sub, vs, i)
      {
        CollectOne(index, sub + i, vs[i]);
        i := i + 1;
      }
      ok := true;
    }

    method CollectEntry(m: Fields, e: Entry, index: nat) returns (ok: bool)
      modifies this
      ensures ok == GoodEntry(m, e)
      ensures ok ==> vals == WithEntry(old(vals), index, m, e)
    {
      match e {
        case Field(name, sub) =>
          CollectOne(index, sub, Get(m, name));
          ok := true;
        case Array(name, sub) =>
          ok := CollectArray(m, name, index, sub);
      }
    }

    method CollectObject(m: Fields, es: seq<Entry>, index: nat) returns (ok: bool)
      modifies this
      ensures ok <==> GoodObject(m, es)
      ensures ok ==> vals == WithObject(old(vals), index, m, es, |es|)
    {
      var n := 0;
      while n < |es|
        invariant 0 <= n <= |es|
        invariant forall i | 0 <= i < n :: GoodEntry(m, es[i])
        invariant vals == WithObject(old(vals), index, m, es, n)
      {
        ok := CollectEntry(m, es[n], index);
        if !ok {
          return;
        }
        n := n + 1;
      }
      ok := true;
    }

    method CollectList(base: nat, ms: seq<Fields>, es: seq<Entry>) returns (ok: bool)
      modifies this
      ensures ok <==> GoodList(ms, es)
      ensures ok ==> vals == WithList(old(vals), base, ms, es, |ms|)
    {
      var i := 0;
      while i < |ms|
        invariant 0 <= i <= |ms|
        invariant forall x | 0 <= x < i :: GoodObject(ms[x], es)
        invariant vals == WithList(old(vals), base, ms, es, i)
      {
        ok := CollectObject(ms[i], es, base + i);
        if !ok {
          return;
        }
        i := i + 1;
      }
      ok := true;
    }

    method CollectGroup(m: Fields, g: Group) returns (ok: bool)
      modifies this
      ensures ok <==> GoodGroup(m, g)
      ensures ok ==> vals == WithGroup(old(vals), m, g)
    {
      var j := Get(m, g.name);
      ok := ListOfObjects(j);
      if ok {
        ok := CollectList(g.base, Objects(j), g.entries);
      }
    }

    method CollectGroups(m: Fields, gs: seq<Group>) returns (ok: bool)
      modifies this
      ensures ok <==> GoodGroups(m, gs)
      ensures ok ==> vals == WithGroups(old(vals), m, gs, |gs|)
    {
      var i := 0;
      while i < |gs|
        invariant 0 <= i <= |gs|
        invariant forall x | 0 <= x < i :: GoodGroup(m, gs[x])
        invariant vals == WithGroups(old(vals), m, gs, i)
      {
        ok := CollectGroup(m, gs[i]);
        if !ok {
          return;
        }
        i := i + 1;
      }
      ok := true;
    }

    method CollectSingle(j: Json, es: seq<Entry>, index: nat) returns (ok: bool)
      modifies this
      ensures ok <==> GoodSingle(j, es)
      ensures ok ==> vals == WithSingle(old(vals), j, index, es)
    {
      ok := j.Null?;
      if j.Object? {
        ok := CollectObject(j.fields, es, index);
      }
    }

    method CollectKeypad(k: nat, m: Fields, t: Tables) returns (ok: bool)
      modifies this
      ensures ok == GoodKeypad(k, m, t)
      ensures ok ==> vals == WithKeypad(old(vals), k, m, t)
    {
      ok := CollectObject(m, t.keypad, 0x3000 + k);
      if ok {
        ok := CollectGroup(m, Buttons(k, t));
      }
      if ok {
        ok := CollectGroup(m, Dials(k, t));
      }
    }

    method CollectKeypads(ms: seq<Fields>, t: Tables) returns (ok: bool)
      modifies this
      ensures ok == GoodKeypads(ms, t, |ms|)
      ensures ok ==> vals == WithKeypads(old(vals), ms, t, |ms|)
    {
      var k := 0;
      while k < |ms|
        invariant 0 <= k <= |ms|
        invariant GoodKeypads(ms, t, k) == true
        invariant vals == WithKeypads(old(vals), ms, t, k)
      {
        NextKeypad(ms, t, k);
        ok := CollectKeypad(k, ms[k], t);
        if !ok {
          return;
        }
        k := k + 1;
      }
      ok := true;
    }

    method CollectPads(j: Json, t: Tables) returns (ok: bool)
      modifies this
      ensures ok <==> GoodPads(j, t)
      ensures ok ==> vals == WithPads(old(vals), j, t)
    {
      ok := ListOfObjects(j);
      if ok {
        ok := CollectKeypads(Objects(j), t);
      }
    }

    /** Collects a whole document. */
    method Collect(m: Fields, t: Tables) returns (ok: bool)
      requires vals == map[]
      modifies this
      ensures ok <==> Good(m, t)
      ensures ok ==> vals == Supplied(m, t)
    {
      ok := CollectObject(m, t.device, 0);
      if ok {
        ok := CollectGroups(m, t.groups);
      }
      if ok {
        ok := CollectSingle(Get(m, "wipers"), t.wiper, 0x1900);
      }
      if ok {
        ok := CollectSingle(Get(m, "starterDisable"), t.starter, 0x1800);
      }
      if ok {
        ok := CollectPads(Get(m, "keypads"), t);
      }
    }
  }
}
