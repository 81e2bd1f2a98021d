/**
 Documents written for one board, whose own tables say which parameters there are and which
 names its variables have.
 */
module BoardDocuments {
  import opened Options
  import opened LittleEndian
  import opened Registry
  import opened Encoding
  import opened Projection
  import opened RegistryFacts
  import opened BoardKeys
  import opened Documents
  import opened DocumentFacts
  import Labels
  import VarMap
  import VarIndex
  import WireValues

  /** What is computed elsewhere: reading text, the names of enumerators, and the bit pattern
      of a single-precision number. */
  datatype Readers = Readers(
    parseBool: string -> Option<bool>,
    parseInt: string -> Option<int>,
    parseFloat: string -> Option<real>,
    enumValue: (string, string) -> Option<uint32>,
    floatBits: real -> uint32)

  function EnvOf(o: Readers, byName: map<string, uint16>, size: nat): Env {
    Env(o.parseBool, o.parseInt, o.parseFloat, o.enumValue, name => VarMap.Lookup(byName, name), size, o.floatBits)
  }

  /** The names of the board's variables, in order. */
  function NamesOf(v: Variant): seq<string> { VarMap.Texts(VarMap.GoLabels(v.board, v.hasWipers)) }

  /** Values are encoded with the board's own variables. */
  function BoardEnv(o: Readers, v: Variant): Env {
    var names := NamesOf(v);
    EnvOf(o, VarMap.IndexMap(names, |names|), |names|)
  }

  /** The counts are a board's, and an index into its variables has sixteen bits. */
  predicate Sound(v: Variant) {
    v.board.Valid() && v.board.Size() <= 0x1_0000 && v.board.wiperVars == if v.hasWipers then 6 else 0
  }

  lemma EncodesReference(e: Env, f: Field, s: string, i: nat)
    requires f.kind == TVarMap && e.varMapSize <= 0x1_0000
    ensures Encode(e, f, Text(s)) == e.varIndex(s)
    ensures Encode(e, f, Number(i as real)) == if i < e.varMapSize then Some(i) else None
  {
  }

  lemma NamesOfBoard(v: Variant)
    requires Sound(v)
    ensures NamesOf(v) == VarMap.Texts(VarMap.PyLabels(v.board))
  {
    VarMap.SameLayouts(v.board);
  }

  /** A parameter that refers to a variable takes, as text, exactly the variables' names, in any
      case and with any space around them, and as numbers exactly their indices. */
  lemma References(o: Readers, v: Variant, f: Field, s: string, i: nat)
    requires Sound(v) && f.kind == TVarMap
    ensures |NamesOf(v)| == v.board.Size()
    ensures Encode(BoardEnv(o, v), f, Text(s)) == Some(i) <==>
      i < |NamesOf(v)| && Labels.Lower(Labels.Trim(s)) == Labels.Lower(NamesOf(v)[i])
    ensures Encode(BoardEnv(o, v), f, Number(i as real)) == if i < |NamesOf(v)| then Some(i) else None
    ensures Encode(BoardEnv(o, v), f, Text(VarMap.NameAt(NamesOf(v), i))) == if i < |NamesOf(v)| then Some(i) else None
  {
    NamesOfBoard(v);
    var names := NamesOf(v);
    VarIndex.LookupsAreInverse(v.board, names, VarMap.IndexMap(names, |names|), s, i);
    EncodesReference(BoardEnv(o, v), f, s, i);
    EncodesReference(BoardEnv(o, v), f, VarMap.NameAt(names, i), i);
  }

  /** For the empty document the full list is written, with every parameter at its default, if
      and only if the board's wiper, if it has one, has at most thirty intermittent times. */
  lemma EmptyDocument(o: Readers, v: Variant)
    ensures AllKnown(Defs(v), map[])
    ensures AllEncode(BoardEnv(o, v), Defs(v), map[], false) <==> (v.hasWipers ==> v.interDelays <= 30)
  {
    var e := BoardEnv(o, v);
    if v.hasWipers && v.interDelays > 30 {
      var d := LateDelay(v);
      GoodDefaultEncodes(e, d.field);
      assert Emitted(d, map[], false) && EncodedOf(e, d, map[]).None?;
    } else {
      DefaultsEncode(e, v);
    }
  }

  // ----- what is written

  /** Output i's field j is in the table. */
  lemma OutputDef(v: Variant, i: nat, j: nat, insts: seq<Instance>)
    requires i < v.board.outputs <= 0x200 && j < |Output(v.board.outputs)| && insts == Instances(v)
    ensures Def(0x1000 + i, Output(v.board.outputs)[j]) in Defs(v)
  {
    var fields := Output(v.board.outputs);
    var block := Block(0x1000, v.board.outputs, fields);
    OutputPlace(v, i, block, insts);
    DefAt(insts, 1 + i, j, Instance(0x1000 + i, fields));
  }

  lemma DefAt(insts: seq<Instance>, k: nat, j: nat, inst: Instance)
    requires k < |insts| && insts[k] == inst && j < |inst.fields|
    ensures Def(inst.index, inst.fields[j]) in Flatten(insts)
  {
    InFlatten(insts, k, j);
  }

  lemma OutputPlace(v: Variant, i: nat, block: seq<Instance>, insts: seq<Instance>)
    requires i < v.board.outputs <= 0x200 && insts == Instances(v)
    requires block == Block(0x1000, v.board.outputs, Output(v.board.outputs))
    ensures 1 + i < |insts| && insts[1 + i] == Instance(0x1000 + i, Output(v.board.outputs))
  {
    assert block[i] == Instance(0x1000 + i, Output(v.board.outputs));
    assert (Single(true, 0, Device()) + block)[1 + i] == block[i];
    assert Inputs(v.board)[1 + i] == block[i];
  }

  /** In the full list every parameter with a key of its own has one value: what its source
      encodes to. */
  lemma WrittenOnce(e: Env, defs: seq<Def>, d: Def, vals: Values, ps: seq<Setting>, raw: uint32)
    requires UniqueKeys(defs) && d in defs && Holds(e, defs, vals, false, ps)
    requires Encode(e, d.field, Source(d, vals)) == Some(raw)
    ensures Setting(Key(d), raw) in ps && forall p | p in ps && p.key == Key(d) :: p.value == raw
  {
    var q :| q in ps && EntryOf(e, d, vals, false, q);
    assert q == Setting(Key(d), raw);
    forall p | p in ps && p.key == Key(d)
      ensures p.value == raw
    {
      var c :| c in defs && EntryOf(e, c, vals, false, p);
      var i :| 0 <= i < |defs| && defs[i] == d;
      var j :| 0 <= j < |defs| && defs[j] == c;
      assert i == j;
    }
  }

  lemma OtherRefused(e: Env, f: Field)
    ensures Encode(e, f, Other) == None
  {
  }

  /** What a document is looked up to hold under a key. */
  predicate SaysAs(vals: Values, key: nat, j: Json) {
    match j
    case Null => key !in vals
    case Scalar(x) => key in vals && vals[key] == x
    case _ => key in vals && vals[key] == Other
  }

  lemma SaidAs(m: Fields, t: Tables, key: nat)
    requires Roomy(m, t)
    ensures SaysAs(Supplied(m, t), key, Says(m, t, key))
  {
    SuppliedIsSaid(m, t, key);
  }

  /** raw is the encoding of what the document says, or of the default if it says nothing. */
  predicate EncodesAs(e: Env, f: Field, said: Json, raw: uint32) {
    Encode(e, f, if said.Scalar? then said.v else Number(f.def)) == Some(raw)
  }

  /** What a document with room for its arrays says for a key is what is written for it, and
      the default where it says nothing. An array or object where a value belongs is never
      written. */
  lemma SaidIsWritten(e: Env, v: Variant, m: Fields, vals: Values, partial: bool, ps: seq<Setting>, p: Setting)
    requires Roomy(m, TABLES) && vals == Supplied(m, TABLES) && Holds(e, Defs(v), vals, partial, ps) && p in ps
    ensures Says(m, TABLES, p.key).Scalar? || Says(m, TABLES, p.key).Null?
    ensures exists d :: d in Defs(v) && Key(d) == p.key && EncodesAs(e, d.field, Says(m, TABLES, p.key), p.value)
  {
    SaidAs(m, TABLES, p.key);
    var d :| d in Defs(v) && EntryOf(e, d, vals, partial, p);
    OtherRefused(e, d.field);
  }

  /** The key of output i's primary output. */
  function PairKey(i: nat): nat { (0x1000 + i) * 256 + 17 }

  /** Every output that the document does not pair with another one has its primary output,
      -1, written as 32 ones. */
  ghost predicate UnpairedAreOnes(v: Variant, vals: Values, ps: seq<Setting>) {
    forall i: nat | i < v.board.outputs && PairKey(i) !in vals :: Setting(PairKey(i), 0xFFFF_FFFF) in ps
  }

  lemma MinusOne(e: Env, outputs: nat)
    ensures Output(outputs)[17].sub == 17 && Output(outputs)[17].def == -1.0
    ensures Encode(e, Output(outputs)[17], Number(-1.0)) == Some(0xFFFF_FFFF)
  {
    WireValues.EncodesSigned(e, Output(outputs)[17], Number(-1.0), 0xFFFF_FFFF);
  }

  lemma UnpairedOutputs(e: Env, v: Variant, vals: Values, ps: seq<Setting>)
    requires Fits(v) && Holds(e, Defs(v), vals, false, ps)
    ensures UnpairedAreOnes(v, vals, ps)
  {
    KeysUnique(v);
    MinusOne(e, v.board.outputs);
    forall i: nat | i < v.board.outputs && PairKey(i) !in vals
      ensures Setting(PairKey(i), 0xFFFF_FFFF) in ps
    {
      OutputDef(v, i, 17, Instances(v));
      UnpairedIn(e, Defs(v), Def(0x1000 + i, Output(v.board.outputs)[17]), vals, ps, i);
    }
  }

  lemma UnpairedIn(e: Env, defs: seq<Def>, d: Def, vals: Values, ps: seq<Setting>, i: nat)
    requires UniqueKeys(defs) && d in defs && Holds(e, defs, vals, false, ps)
    requires d.index == 0x1000 + i && d.field.sub == 17 && d.field.def == -1.0 && PairKey(i) !in vals
    requires Encode(e, d.field, Number(-1.0)) == Some(0xFFFF_FFFF)
    ensures Setting(PairKey(i), 0xFFFF_FFFF) in ps
  {
    assert Key(d) == PairKey(i);
    WrittenOnce(e, defs, d, vals, ps, 0xFFFF_FFFF);
  }

  /** A board's names and indices belong together. */
  lemma VariablesInvert(v: Variant, names: seq<string>, byName: map<string, uint16>, varName: uint16 -> string)
    requires Sound(v) && names == NamesOf(v) && byName == VarMap.IndexMap(names, |names|)
    requires forall i: uint16 :: varName(i) == VarMap.NameAt(names, i)
    ensures |names| <= 0x1_0000
    ensures forall s, i: uint16 | VarMap.Lookup(byName, s) == Some(i) :: varName(i) != ""
    ensures forall i: uint16 | varName(i) != "" :: VarMap.Lookup(byName, varName(i)) == Some(i)
  {
    NamesOfBoard(v);
    VarIndex.LookupsAreInverse(v.board, names, byName, "", 0);
    forall s, i: uint16 | VarMap.Lookup(byName, s) == Some(i)
      ensures varName(i) != ""
    {
      VarIndex.LookupsAreInverse(v.board, names, byName, s, i);
      VarIndex.NamesBare(v.board, names, i);
    }
    forall i: uint16 | varName(i) != ""
      ensures VarMap.Lookup(byName, varName(i)) == Some(i)
    {
      VarIndex.LookupsAreInverse(v.board, names, byName, "", i);
    }
  }
  /** What is written to a board and read back by its own names is taken again as the same,
      variables included; a float, exactly if it is still in range and has the same bits.
      Enumerators' names are asked to belong together with their numbers. */
  lemma BoardReadBack(o: Readers, v: Variant, ns: WireValues.Names, f: Field, x: Value, raw: uint32, e: Env)
    requires Sound(v) && e == BoardEnv(o, v) && Encode(e, f, x) == Some(raw)
    requires forall i: uint16 :: ns.varName(i) == VarMap.NameAt(NamesOf(v), i)
    requires forall enum, s, n: uint32 | o.enumValue(enum, s) == Some(n) :: ns.enumName(enum, n) != ""
    requires forall enum, n: uint32 | ns.enumName(enum, n) != "" :: o.enumValue(enum, ns.enumName(enum, n)) == Some(n)
    ensures !f.kind.TFloat? ==> Encode(e, f, WireValues.Decode(ns, f, raw)) == Some(raw)
    ensures f.kind.TFloat? ==> (Encode(e, f, WireValues.Decode(ns, f, raw)) == Some(raw) <==>
      f.min <= ns.floatOf(raw) <= f.max && e.floatBits(ns.floatOf(raw)) == raw)
  {
    var names := NamesOf(v);
    VariablesInvert(v, names, VarMap.IndexMap(names, |names|), ns.varName);
    WireValues.ReadBack(e, ns, f, x, raw);
  }

  // ----- which documents fit a board

  lemma KnownExactly(v: Variant, vals: Values)
    requires Fits(v)
    ensures AllKnown(Defs(v), vals) <==> forall key | key in vals :: OnBoard(v, key / 256, key % 256)
  {
    forall key: nat
      ensures (exists d :: d in Defs(v) && Key(d) == key) <==> OnBoard(v, key / 256, key % 256)
    {
      KeysExactly(v, key);
    }
  }

  /** A document with room for its arrays is accepted if and only if it says nothing for an
      index and subindex that the board does not have. */
  lemma AcceptedExactly(v: Variant, m: Fields)
    requires Fits(v) && Roomy(m, TABLES)
    ensures AllKnown(Defs(v), Supplied(m, TABLES))
      <==> forall key: nat :: Says(m, TABLES, key).Null? || OnBoard(v, key / 256, key % 256)
  {
    var vals := Supplied(m, TABLES);
    KnownExactly(v, vals);
    forall key: nat
      ensures key in vals <==> !Says(m, TABLES, key).Null?
    {
      SuppliedIsSaid(m, TABLES, key);
    }
  }

  /** How many objects of a group the board has. */
  function SlotsOf(v: Variant, base: nat): nat {
    var b := v.board;
    if base == 0x1000 then b.outputs else if base == 0x1200 then b.digInputs else if base == 0x1300 then b.canInputs
    else if base == 0x1400 then b.virtInputs else if base == 0x1500 then b.conditions
    else if base == 0x1600 then b.counters else if base == 0x1700 then b.flashers else b.canOutputs
  }

  lemma SlotsOnBoard(v: Variant, base: nat, i: nat, s: nat)
    requires Fits(v) && base in {0x1000, 0x1200, 0x1300, 0x1400, 0x1500, 0x1600, 0x1700, 0x2000}
    requires i < Room(base) && OnBoard(v, base + i, s)
    ensures i < SlotsOf(v, base)
  {
  }

  lemma BasesOf(j: nat)
    requires j < |GROUPS|
    ensures GROUPS[j].base in {0x1000, 0x1200, 0x1300, 0x1400, 0x1500, 0x1600, 0x1700, 0x2000}
  {
  }

  lemma KeyRefused(v: Variant, vals: Values, key: nat)
    requires Fits(v) && key in vals && !OnBoard(v, key / 256, key % 256)
    ensures !AllKnown(Defs(v), vals)
  {
    KnownExactly(v, vals);
  }

  /** Such a document is refused if it says anything in more objects than the board has. */
  lemma ExtraObjectRefused(v: Variant, m: Fields, j: nat, i: nat, s: nat)
    requires Fits(v) && Roomy(m, TABLES) && j < |GROUPS| && s < 256
    requires SlotsOf(v, GROUPS[j].base) <= i < |Objects(Get(m, GROUPS[j].name))|
    requires var g := GROUPS[j]; !ObjectSays(Objects(Get(m, g.name))[i], g.entries, |g.entries|, s).Null?
    ensures !AllKnown(Defs(v), Supplied(m, TABLES))
  {
    var g := TABLES.groups[j];
    assert FitsGroup(m, g, Room(g.base)) && Placed(g.base, Room(g.base));
    GroupKept(m, TABLES, j, i, s);
    SlotParts(g.base + i, s);
    BasesOf(j);
    if OnBoard(v, g.base + i, s) { SlotsOnBoard(v, g.base, i, s); }
    KeyRefused(v, Supplied(m, TABLES), Slot(g.base + i, s));
  }

  lemma OneKey(v: Variant, key: nat, x: Value)
    requires Fits(v) && OnBoard(v, key / 256, key % 256)
    ensures AllKnown(Defs(v), map[key := x])
  {
    KnownExactly(v, map[key := x]);
  }

  /** But 33 buttons on the first of two keypads are accepted, whatever the board has. */
  lemma ExtraButtonAccepted(v: Variant, x: Json)
    requires Fits(v) && v.board.keypads >= 2 && v.board.keypadButtons > 0 && !x.Null?
    ensures Good(LateButton(x), TABLES) && AllKnown(Defs(v), Supplied(LateButton(x), TABLES))
    ensures |Objects(Get(LatePad(x), "buttons"))| > v.board.keypadButtons
  {
    LateButtonGood(x);
    LateButtonLands(x);
    LateObjects(x);
    SlotParts(0x3120, 1);
    assert OnPads(v.board, v.board.keypads, 0x3120, 1);
    OneKey(v, Slot(0x3120, 1), ValueOf(x));
  }

  /** The projection of values by key onto a board whose counts fit its table. */
  method ProjectValues(o: Readers, v: Variant, vals: Values, partial: bool) returns (r: Outcome)
    requires Fits(v)
    ensures r.NoSuchParam? <==> !AllKnown(Defs(v), vals)
    ensures r.Written? <==> AllKnown(Defs(v), vals) && AllEncode(BoardEnv(o, v), Defs(v), vals, partial)
    ensures r.Written? ==> Sorted(r.params) && Holds(BoardEnv(o, v), Defs(v), vals, partial, r.params)
    ensures r.Written? ==> KeysOf(r.params) == if partial then vals.Keys else set d | d in Defs(v) :: Key(d)
    ensures r.Written? && !partial ==> UnpairedAreOnes(v, vals, r.params)
  {
    var vm := new VarMap.VarTable();
    vm.BuildVarMap(v.board, v.hasWipers);
    var reg := new Table(v);
    KeysUnique(v);
    r := Project(EnvOf(o, vm.byName, |vm.names|), reg, vals, partial);
    if r.Written? && !partial { UnpairedOutputs(BoardEnv(o, v), v, vals, r.params); }
  }

  /** The projection of a document; there is none if the document has the wrong shape. */
  method ProjectDocument(o: Readers, v: Variant, m: Fields, partial: bool) returns (r: Option<Outcome>)
    requires Fits(v)
    ensures r.Some? <==> Good(m, TABLES)
    ensures r.Some? ==> (r.value.NoSuchParam? <==> !AllKnown(Defs(v), Supplied(m, TABLES)))
    ensures r.Some? ==> (r.value.Written? <==>
      AllKnown(Defs(v), Supplied(m, TABLES)) && AllEncode(BoardEnv(o, v), Defs(v), Supplied(m, TABLES), partial))
    ensures r.Some? && r.value.Written? ==>
      && Sorted(r.value.params) && Holds(BoardEnv(o, v), Defs(v), Supplied(m, TABLES), partial, r.value.params)
      && KeysOf(r.value.params) == if partial then Supplied(m, TABLES).Keys else set d | d in Defs(v) :: Key(d)
  {
    var c := new Collector();
    var ok := c.Collect(m, TABLES);
    if !ok {
      return None;
    }
    var p := ProjectValues(o, v, c.vals, partial);
    r := Some(p);
  }
}
