/**
 What a document says for each key, looked up directly; and that collecting gives just that
 as long as no array of the document is longer than the room for it.
 */
module DocumentFacts {
  import opened Options
  import opened Encoding
  import opened Projection
  import opened Documents

  function Look(vals: Values, key: nat): Option<Value> { if key in vals then Some(vals[key]) else None }

  /** What is collected when this is said on top of that. */
  function Over(j: Json, under: Option<Value>): Option<Value> { if j.Null? then under else Some(ValueOf(j)) }

  // ----- what one object says

  function EntrySays(m: Fields, e: Entry, sub: nat): Json {
    match e
    case Field(name, at) => if sub == at then Get(m, name) else Null
    case Array(name, at) =>
      var vs := Elements(Get(m, name));
      if at <= sub < at + |vs| then vs[sub - at] else Null
  }

  /** Of the first n entries the last one that says something counts. */
  function ObjectSays(m: Fields, es: seq<Entry>, n: nat, sub: nat): Json
    requires n <= |es|
  {
    if n == 0 then Null
    else
      var j := EntrySays(m, es[n - 1], sub);
      if j.Null? then ObjectSays(m, es, n - 1, sub) else j
  }

  /** Subindices have eight bits. */
  predicate Narrow(m: Fields, es: seq<Entry>) {
    forall i | 0 <= i < |es| :: NarrowEntry(m, es[i])
  }

  predicate NarrowEntry(m: Fields, e: Entry) {
    match e
    case Field(_, at) => at < 256
    case Array(name, at) => at + |Elements(Get(m, name))| <= 256
  }

  lemma OneLook(vals: Values, index: nat, sub: nat, j: Json, key: nat)
    requires sub < 256 && index < 0x1_0000
    ensures Look(WithOne(vals, index, sub, j), key)
      == if key / 256 == index && key % 256 == sub then Over(j, Look(vals, key)) else Look(vals, key)
  {
  }

  lemma {:induction false} ManyLook(vals: Values, index: nat, sub: nat, vs: seq<Json>, n: nat, key: nat)
    requires n <= |vs| && sub + n <= 256 && index < 0x1_0000
    ensures Look(WithMany(vals, index, sub, vs, n), key)
      == if key / 256 == index && sub <= key % 256 < sub + n then Over(vs[key % 256 - sub], Look(vals, key))
         else Look(vals, key)
  {
    if n > 0 {
      ManyLook(vals, index, sub, vs, n - 1, key);
      OneLook(WithMany(vals, index, sub, vs, n - 1), index, sub + n - 1, vs[n - 1], key);
    }
  }

  lemma EntryLook(vals: Values, index: nat, m: Fields, e: Entry, key: nat)
    requires NarrowEntry(m, e) && index < 0x1_0000
    ensures Look(WithEntry(vals, index, m, e), key)
      == if key / 256 == index then Over(EntrySays(m, e, key % 256), Look(vals, key)) else Look(vals, key)
  {
    match e
    case Field(name, at) => OneLook(vals, index, at, Get(m, name), key);
    case Array(name, at) => ManyLook(vals, index, at, Elements(Get(m, name)), |Elements(Get(m, name))|, key);
  }

  lemma {:induction false} ObjectLook(vals: Values, index: nat, m: Fields, es: seq<Entry>, n: nat, key: nat)
    requires n <= |es| && Narrow(m, es) && index < 0x1_0000
    ensures Look(WithObject(vals, index, m, es, n), key)
      == if key / 256 == index then Over(ObjectSays(m, es, n, key % 256), Look(vals, key)) else Look(vals, key)
  {
    if n > 0 {
      ObjectLook(vals, index, m, es, n - 1, key);
      EntryLook(WithObject(vals, index, m, es, n - 1), index, m, es[n - 1], key);
    }
  }

  // ----- what a list of objects says

  predicate NarrowList(ms: seq<Fields>, es: seq<Entry>) { forall i | 0 <= i < |ms| :: Narrow(ms[i], es) }

  /** The object at this index, counted from the base. */
  function ListSays(base: nat, ms: seq<Fields>, es: seq<Entry>, n: nat, key: nat): Json
    requires n <= |ms|
  {
    if base <= key / 256 < base + n then ObjectSays(ms[key / 256 - base], es, |es|, key % 256) else Null
  }

  lemma {:induction false} ListLook(vals: Values, base: nat, ms: seq<Fields>, es: seq<Entry>, n: nat, key: nat)
    requires n <= |ms| && NarrowList(ms, es) && base + n <= 0x1_0000
    ensures Look(WithList(vals, base, ms, es, n), key) == Over(ListSays(base, ms, es, n, key), Look(vals, key))
  {
    if n > 0 {
      ListLook(vals, base, ms, es, n - 1, key);
      ObjectLook(WithList(vals, base, ms, es, n - 1), base + n - 1, ms[n - 1], es, |es|, key);
    }
  }

  /** A group with no more objects than there is room for. */
  predicate FitsGroup(m: Fields, g: Group, room: nat) {
    var ms := Objects(Get(m, g.name));
    |ms| <= room && g.base + room <= 0x1_0000 && NarrowList(ms, g.entries)
  }

  function GroupSays(m: Fields, g: Group, key: nat): Json {
    var ms := Objects(Get(m, g.name));
    ListSays(g.base, ms, g.entries, |ms|, key)
  }

  lemma GroupLook(vals: Values, m: Fields, g: Group, room: nat, key: nat)
    requires FitsGroup(m, g, room)
    ensures Look(WithGroup(vals, m, g), key) == Over(GroupSays(m, g, key), Look(vals, key))
    ensures !(g.base <= key / 256 < g.base + room) ==> GroupSays(m, g, key).Null?
  {
    var ms := Objects(Get(m, g.name));
    ListLook(vals, g.base, ms, g.entries, |ms|, key);
  }

  /** How many indices there are from a block's first to the next block's. */
  function Room(base: nat): nat { if base == 0x1000 then 0x200 else 0x100 }

  predicate AllFit(m: Fields, gs: seq<Group>) { forall i | 0 <= i < |gs| :: FitsGroup(m, gs[i], Room(gs[i].base)) }

  function GroupsSay(m: Fields, gs: seq<Group>, n: nat, key: nat): Json
    requires n <= |gs|
  {
    if n == 0 then Null
    else
      var j := GroupSays(m, gs[n - 1], key);
      if j.Null? then GroupsSay(m, gs, n - 1, key) else j
  }

  lemma {:induction false} GroupsLook(vals: Values, m: Fields, gs: seq<Group>, n: nat, key: nat)
    requires n <= |gs| && AllFit(m, gs)
    ensures Look(WithGroups(vals, m, gs, n), key) == Over(GroupsSay(m, gs, n, key), Look(vals, key))
  {
    if n > 0 {
      GroupsLook(vals, m, gs, n - 1, key);
      GroupLook(WithGroups(vals, m, gs, n - 1), m, gs[n - 1], Room(gs[n - 1].base), key);
    }
  }

  /** The blocks do not overlap, and lie where nothing else does. */
  predicate Apart(gs: seq<Group>) {
    && (forall i | 0 <= i < |gs| :: Placed(gs[i].base, Room(gs[i].base)))
    && (forall i, j | 0 <= i < j < |gs| :: Disjoint(gs[i].base, gs[j].base))
  }

  predicate Placed(base: nat, room: nat) {
    (0x1000 <= base && base + room <= 0x1800) || (0x2000 <= base && base + room <= 0x3000)
  }

  predicate Disjoint(a: nat, b: nat) { a + Room(a) <= b || b + Room(b) <= a }

  lemma GroupsApart()
    ensures Apart(GROUPS)
  {
  }

  /** So an index in one block's room is that block's. */
  lemma {:induction false} GroupsSayOne(m: Fields, gs: seq<Group>, n: nat, j: nat, key: nat)
    requires n <= |gs| && j < |gs| && AllFit(m, gs) && Apart(gs)
    requires gs[j].base <= key / 256 < gs[j].base + Room(gs[j].base)
    ensures GroupsSay(m, gs, n, key) == if j < n then GroupSays(m, gs[j], key) else Null
  {
    if n > 0 {
      var i := n - 1;
      GroupsSayOne(m, gs, i, j, key);
      if i < j { assert Disjoint(gs[i].base, gs[j].base); }
      if j < i { assert Disjoint(gs[j].base, gs[i].base); }
      GroupLook(map[], m, gs[i], Room(gs[i].base), key);
    }
  }

  lemma {:induction false} GroupsSilent(m: Fields, gs: seq<Group>, n: nat, key: nat)
    requires n <= |gs| && AllFit(m, gs) && Apart(gs)
    requires key / 256 < 0x1000 || 0x1800 <= key / 256 < 0x2000 || 0x3000 <= key / 256
    ensures GroupsSay(m, gs, n, key).Null?
  {
    if n > 0 {
      GroupsSilent(m, gs, n - 1, key);
      GroupLook(map[], m, gs[n - 1], Room(gs[n - 1].base), key);
    }
  }

  // ----- what the keypads say

  predicate FitsKeypad(k: nat, m: Fields, t: Tables) {
    Narrow(m, t.keypad) && FitsGroup(m, Buttons(k, t), 32) && FitsGroup(m, Dials(k, t), 4)
  }

  predicate FitKeypads(ms: seq<Fields>, t: Tables) {
    |ms| <= 8 && forall k | 0 <= k < |ms| :: FitsKeypad(k, ms[k], t)
  }

  /** Which keypad an index belongs to. */
  function PadOf(x: nat): nat {
    if 0x3000 <= x < 0x3100 then x - 0x3000
    else if 0x3100 <= x < 0x3200 then (x - 0x3100) / 32
    else if 0x3200 <= x < 0x3220 then (x - 0x3200) / 4
    else 0x100
  }

  /** The keypad itself, a button or a dial. */
  function KeypadSays(k: nat, m: Fields, t: Tables, key: nat): Json {
    var x := key / 256;
    if PadOf(x) != k then Null
    else if x < 0x3100 then ObjectSays(m, t.keypad, |t.keypad|, key % 256)
    else if x < 0x3200 then GroupSays(m, Buttons(k, t), key)
    else GroupSays(m, Dials(k, t), key)
  }

  function PadsSay(ms: seq<Fields>, t: Tables, n: nat, key: nat): Json
    requires n <= |ms|
  {
    var k := PadOf(key / 256);
    if k < n then KeypadSays(k, ms[k], t, key) else Null
  }

  lemma PadOfExactly(x: nat, k: nat)
    requires k < 8
    ensures PadOf(x) == k <==>
      x == 0x3000 + k || 0x3100 + k * 32 <= x < 0x3100 + k * 32 + 32 || 0x3200 + k * 4 <= x < 0x3200 + k * 4 + 4
  {
  }

  lemma KeypadLook(vals: Values, k: nat, m: Fields, t: Tables, key: nat)
    requires k < 8 && FitsKeypad(k, m, t)
    ensures Look(WithKeypad(vals, k, m, t), key) == Over(KeypadSays(k, m, t, key), Look(vals, key))
  {
    var a := WithObject(vals, 0x3000 + k, m, t.keypad, |t.keypad|);
    var b := WithGroup(a, m, Buttons(k, t));
    PadOfExactly(key / 256, k);
    ObjectLook(vals, 0x3000 + k, m, t.keypad, |t.keypad|, key);
    GroupLook(a, m, Buttons(k, t), 32, key);
    GroupLook(b, m, Dials(k, t), 4, key);
  }

  lemma PadsSayNext(ms: seq<Fields>, t: Tables, n: nat, key: nat, under: Option<Value>)
    requires n < |ms|
    ensures Over(KeypadSays(n, ms[n], t, key), Over(PadsSay(ms, t, n, key), under))
      == Over(PadsSay(ms, t, n + 1, key), under)
  {
  }

  lemma {:induction false} KeypadsLook(vals: Values, ms: seq<Fields>, t: Tables, n: nat, key: nat)
    requires n <= |ms| && FitKeypads(ms, t)
    ensures Look(WithKeypads(vals, ms, t, n), key) == Over(PadsSay(ms, t, n, key), Look(vals, key))
  {
    if n > 0 {
      KeypadsLook(vals, ms, t, n - 1, key);
      PadsSayNext(ms, t, n - 1, key, Look(vals, key));
      KeypadLook(WithKeypads(vals, ms, t, n - 1), n - 1, ms[n - 1], t, key);
    }
  }

  // ----- what a document says

  function SingleSays(j: Json, es: seq<Entry>, key: nat): Json {
    if j.Object? then ObjectSays(j.fields, es, |es|, key % 256) else Null
  }

  /** What a document says for a key, looked up by the index and the subindex. */
  function Says(m: Fields, t: Tables, key: nat): Json {
    var x := key / 256;
    if x == 0 then ObjectSays(m, t.device, |t.device|, key % 256)
    else if x == 0x1800 then SingleSays(Get(m, "starterDisable"), t.starter, key)
    else if x == 0x1900 then SingleSays(Get(m, "wipers"), t.wiper, key)
    else if x >= 0x3000 then PadsSay(Objects(Get(m, "keypads")), t, |Objects(Get(m, "keypads"))|, key)
    else GroupsSay(m, t.groups, |t.groups|, key)
  }

  /** No array of the document is longer than the room for it. */
  predicate Roomy(m: Fields, t: Tables) {
    && Narrow(m, t.device) && AllFit(m, t.groups) && Apart(t.groups)
    && (Get(m, "wipers").Object? ==> Narrow(Get(m, "wipers").fields, t.wiper))
    && (Get(m, "starterDisable").Object? ==> Narrow(Get(m, "starterDisable").fields, t.starter))
    && FitKeypads(Objects(Get(m, "keypads")), t)
  }

  lemma SingleLook(vals: Values, j: Json, index: nat, es: seq<Entry>, key: nat)
    requires index < 0x1_0000 && (j.Object? ==> Narrow(j.fields, es))
    ensures Look(WithSingle(vals, j, index, es), key)
      == if key / 256 == index then Over(SingleSays(j, es, key), Look(vals, key)) else Look(vals, key)
  {
    if j.Object? { ObjectLook(vals, index, j.fields, es, |es|, key); }
  }

  /** Collecting in order gives for every key what the document says for it. */
  lemma SuppliedIsSaid(m: Fields, t: Tables, key: nat)
    requires Roomy(m, t)
    ensures Look(Supplied(m, t), key) == Over(Says(m, t, key), None)
  {
    var d := WithObject(map[], 0, m, t.device, |t.device|);
    var g := WithGroups(d, m, t.groups, |t.groups|);
    var w := WithSingle(g, Get(m, "wipers"), 0x1900, t.wiper);
    var st := WithSingle(w, Get(m, "starterDisable"), 0x1800, t.starter);
    var ms := Objects(Get(m, "keypads"));
    ObjectLook(map[], 0, m, t.device, |t.device|, key);
    GroupsLook(d, m, t.groups, |t.groups|, key);
    SingleLook(g, Get(m, "wipers"), 0x1900, t.wiper, key);
    SingleLook(w, Get(m, "starterDisable"), 0x1800, t.starter, key);
    KeypadsLook(st, ms, t, |ms|, key);
    var x := key / 256;
    if x < 0x1000 || 0x1800 <= x < 0x2000 || 0x3000 <= x { GroupsSilent(m, t.groups, |t.groups|, key); }
  }

  // ----- nothing is lost inside an object

  /** How many subindices there are from an array's first to the next entry's. */
  function EntryRoom(e: Entry): nat {
    match e
    case Field(_, _) => 1
    case Array(name, _) =>
      if name == "speedMap" then 8 else if name == "intermitTime" then 236 else if name == "outputsDisabled" then 254
      else 4
  }

  /** No array of the object runs into the next entry. */
  predicate Tight(m: Fields, es: seq<Entry>) { forall i | 0 <= i < |es| :: TightEntry(m, es[i]) }

  predicate TightEntry(m: Fields, e: Entry) { e.Array? ==> |Elements(Get(m, e.name))| <= EntryRoom(e) }

  predicate Owns(e: Entry, sub: nat) { e.sub <= sub < e.sub + EntryRoom(e) }

  predicate Clear(a: Entry, b: Entry) { a.sub + EntryRoom(a) <= b.sub || b.sub + EntryRoom(b) <= a.sub }

  predicate Clearance(es: seq<Entry>, i: nat)
    requires i < |es|
  {
    es[i].sub + EntryRoom(es[i]) <= 256
  }

  predicate EntriesApart(es: seq<Entry>) {
    && (forall i | 0 <= i < |es| :: Clearance(es, i))
    && (forall i, j | 0 <= i < j < |es| :: Clear(es[i], es[j]))
  }

  /** The first n entries are fields, in order. */
  predicate FieldsFirst(es: seq<Entry>, n: nat) {
    n <= |es| && forall i | 0 <= i < n :: es[i].Field? && es[i].sub == i
  }

  lemma FieldsApart(es: seq<Entry>)
    requires FieldsFirst(es, |es|) && |es| <= 256
    ensures EntriesApart(es)
  {
  }

  lemma TailApart(es: seq<Entry>, n: nat, a: Entry, b: Entry)
    requires FieldsFirst(es, n) && es == es[..n] + [a, b]
    requires n <= a.sub && a.sub + EntryRoom(a) <= b.sub && b.sub + EntryRoom(b) <= 256
    ensures EntriesApart(es)
  {
    assert es[n] == a && es[n + 1] == b;
  }

  /** The entries of every object of a group are apart. */
  lemma GroupsTight(j: nat)
    requires j < |GROUPS|
    ensures EntriesApart(GROUPS[j].entries)
  {
    FieldsApart(GROUPS[j].entries);
  }

  lemma SinglesTight()
    ensures EntriesApart(DEVICE) && EntriesApart(WIPER) && EntriesApart(STARTER)
  {
    FieldsApart(DEVICE);
    TailApart(WIPER, 12, WIPER[12], WIPER[13]);
    assert EntryRoom(STARTER[2]) == 254;
  }

  lemma ButtonsTight()
    ensures EntriesApart(BUTTON) && EntriesApart(KEYPAD) && EntriesApart(DIAL)
  {
    FieldsApart(KEYPAD);
    FieldsApart(DIAL);
    ButtonRooms();
    forall i, j | 0 <= i < j < |BUTTON|
      ensures Clear(BUTTON[i], BUTTON[j])
    {
    }
  }

  lemma ButtonRooms()
    ensures forall i | 0 <= i < |BUTTON| :: EntryRoom(BUTTON[i]) == if i < 6 then 1 else 4
    ensures forall i | 0 <= i < |BUTTON| ::
      BUTTON[i].sub == if i == 0 then 0 else if i < 6 then 5 * i - 4 else 5 * i - 28
  {
  }

  lemma {:induction false} EntryKept(m: Fields, es: seq<Entry>, n: nat, i: nat, sub: nat)
    requires n <= |es| && i < |es| && Tight(m, es) && EntriesApart(es) && Owns(es[i], sub)
    ensures ObjectSays(m, es, n, sub) == if i < n then EntrySays(m, es[i], sub) else Null
  {
    if n > 0 {
      var j := n - 1;
      EntryKept(m, es, j, i, sub);
      if j < i { assert Clear(es[j], es[i]); }
      if i < j { assert Clear(es[i], es[j]); }
      assert TightEntry(m, es[j]);
    }
  }

  /** If an array runs into a field that was read before it, the field is lost. */
  lemma {:induction false} EntryLost(m: Fields, es: seq<Entry>, n: nat, i: nat, j: nat)
    requires i < j < n <= |es| && es[i].Field? && es[j].Array? && !EntrySays(m, es[j], es[i].sub).Null?
    requires forall x | j < x < n :: EntrySays(m, es[x], es[i].sub).Null?
    ensures ObjectSays(m, es, n, es[i].sub) == EntrySays(m, es[j], es[i].sub)
  {
    if j < n - 1 { EntryLost(m, es, n - 1, i, j); }
  }

  // ----- nothing is lost between objects

  lemma SlotParts(x: nat, s: nat)
    requires x < 0x1_0000 && s < 256
    ensures Slot(x, s) / 256 == x && Slot(x, s) % 256 == s
  {
  }

  /** Whatever an object of a group says is what is collected for its index. */
  lemma GroupKept(m: Fields, t: Tables, j: nat, i: nat, s: nat)
    requires Roomy(m, t) && j < |t.groups| && s < 256
    requires i < |Objects(Get(m, t.groups[j].name))|
    ensures var g := t.groups[j];
      Look(Supplied(m, t), Slot(g.base + i, s))
        == Over(ObjectSays(Objects(Get(m, g.name))[i], g.entries, |g.entries|, s), None)
  {
    var g := t.groups[j];
    assert FitsGroup(m, g, Room(g.base)) && Placed(g.base, Room(g.base));
    SlotParts(g.base + i, s);
    SuppliedIsSaid(m, t, Slot(g.base + i, s));
    GroupsSayOne(m, t.groups, |t.groups|, j, Slot(g.base + i, s));
  }

  /** Every field of every object of a group is collected under its own key. */
  lemma FieldKept(m: Fields, t: Tables, j: nat, i: nat, e: nat)
    requires Roomy(m, t) && j < |t.groups| && i < |Objects(Get(m, t.groups[j].name))|
    requires e < |t.groups[j].entries| && EntriesApart(t.groups[j].entries)
    requires Tight(Objects(Get(m, t.groups[j].name))[i], t.groups[j].entries)
    ensures var g, s := t.groups[j], t.groups[j].entries[e].sub;
      Look(Supplied(m, t), Slot(g.base + i, s))
        == Over(EntrySays(Objects(Get(m, g.name))[i], g.entries[e], s), None)
  {
    var g := t.groups[j];
    assert Clearance(g.entries, e);
    GroupKept(m, t, j, i, g.entries[e].sub);
    EntryKept(Objects(Get(m, g.name))[i], g.entries, |g.entries|, e, g.entries[e].sub);
  }

  /** Every field and every element of the arrays of every button is collected under its own
      key, if none of its arrays runs into the next entry. */
  lemma ButtonKept(m: Fields, t: Tables, k: nat, i: nat, e: nat, s: nat)
    requires Roomy(m, t) && e < |t.button| && EntriesApart(t.button) && Owns(t.button[e], s)
    requires var ms := Objects(Get(m, "keypads")); k < |ms| && i < |Objects(Get(ms[k], "buttons"))|
    requires Tight(Objects(Get(Objects(Get(m, "keypads"))[k], "buttons"))[i], t.button)
    ensures var b := Objects(Get(Objects(Get(m, "keypads"))[k], "buttons"))[i];
      Look(Supplied(m, t), Slot(0x3100 + k * 32 + i, s)) == Over(EntrySays(b, t.button[e], s), None)
  {
    var ms := Objects(Get(m, "keypads"));
    assert Clearance(t.button, e) && FitsKeypad(k, ms[k], t);
    SlotParts(0x3100 + k * 32 + i, s);
    PadOfExactly(0x3100 + k * 32 + i, k);
    SuppliedIsSaid(m, t, Slot(0x3100 + k * 32 + i, s));
    EntryKept(Objects(Get(ms[k], "buttons"))[i], t.button, |t.button|, e, s);
  }

  /** The same of the wiper, */
  lemma WiperKept(m: Fields, t: Tables, e: nat, s: nat)
    requires Roomy(m, t) && e < |t.wiper| && EntriesApart(t.wiper) && Owns(t.wiper[e], s)
    requires Get(m, "wipers").Object? && Tight(Get(m, "wipers").fields, t.wiper)
    ensures Look(Supplied(m, t), Slot(0x1900, s)) == Over(EntrySays(Get(m, "wipers").fields, t.wiper[e], s), None)
  {
    assert Clearance(t.wiper, e);
    SlotParts(0x1900, s);
    SuppliedIsSaid(m, t, Slot(0x1900, s));
    EntryKept(Get(m, "wipers").fields, t.wiper, |t.wiper|, e, s);
  }

  /** and of the starter. */
  lemma StarterKept(m: Fields, t: Tables, e: nat, s: nat)
    requires Roomy(m, t) && e < |t.starter| && EntriesApart(t.starter) && Owns(t.starter[e], s)
    requires Get(m, "starterDisable").Object? && Tight(Get(m, "starterDisable").fields, t.starter)
    ensures Look(Supplied(m, t), Slot(0x1800, s))
      == Over(EntrySays(Get(m, "starterDisable").fields, t.starter[e], s), None)
  {
    assert Clearance(t.starter, e);
    SlotParts(0x1800, s);
    SuppliedIsSaid(m, t, Slot(0x1800, s));
    EntryKept(Get(m, "starterDisable").fields, t.starter, |t.starter|, e, s);
  }

  // ----- more buttons than there is room for

  lemma {:induction false} Unsaid(vals: Values, index: nat, m: Fields, es: seq<Entry>, n: nat)
    requires n <= |es| && forall i | 0 <= i < n :: Get(m, es[i].name).Null?
    ensures WithObject(vals, index, m, es, n) == vals
  {
    if n > 0 { Unsaid(vals, index, m, es, n - 1); }
  }

  lemma {:induction false} UnsaidList(vals: Values, base: nat, ms: seq<Fields>, es: seq<Entry>, n: nat)
    requires n <= |ms| && forall i | 0 <= i < n :: ms[i] == map[]
    ensures WithList(vals, base, ms, es, n) == vals
  {
    if n > 0 {
      UnsaidList(vals, base, ms, es, n - 1);
      Unsaid(vals, base + n - 1, ms[n - 1], es, |es|);
    }
  }

  lemma {:induction false} UnsaidGroups(vals: Values, m: Fields, gs: seq<Group>, n: nat)
    requires n <= |gs| && forall i | 0 <= i < n :: Get(m, gs[i].name).Null?
    ensures WithGroups(vals, m, gs, n) == vals
  {
    if n > 0 { UnsaidGroups(vals, m, gs, n - 1); }
  }

  lemma {:induction false} OneSaid(vals: Values, index: nat, m: Fields, es: seq<Entry>, n: nat, i: nat)
    requires i < n <= |es| && forall x | 0 <= x < n && x != i :: Get(m, es[x].name).Null?
    ensures WithObject(vals, index, m, es, n) == WithEntry(vals, index, m, es[i])
  {
    if i == n - 1 { Unsaid(vals, index, m, es, n - 1); } else { OneSaid(vals, index, m, es, n - 1, i); }
  }

  /** Of all the names in a document the tables of other objects know none. */
  lemma OtherNames()
    ensures forall i | 0 <= i < |DEVICE| :: DEVICE[i].name != "keypads"
    ensures forall i | 0 <= i < |GROUPS| :: GROUPS[i].name != "keypads"
    ensures forall i | 0 <= i < |KEYPAD| :: KEYPAD[i].name != "buttons"
    ensures forall i | 0 <= i < |BUTTON| && i != 1 :: BUTTON[i].name != "mode"
  {
  }

  /** A keypad whose first 32 buttons are empty, and whose 33rd says something. */
  function LatePad(x: Json): Fields {
    map["buttons" := List(seq(32, _ => Object(map[])) + [Object(map["mode" := x])])]
  }

  function LateButton(x: Json): Fields { map["keypads" := List([Object(LatePad(x))])] }

  lemma LateObjects(x: Json)
    ensures Objects(Get(LateButton(x), "keypads")) == [LatePad(x)]
    ensures Objects(Get(LatePad(x), "buttons")) == seq(32, _ => map[]) + [map["mode" := x]]
    ensures Get(LatePad(x), "dials").Null? && Get(LateButton(x), "wipers").Null?
    ensures Get(LateButton(x), "starterDisable").Null?
  {
  }

  lemma LateList(x: Json, ms: seq<Fields>)
    requires ms == seq(32, _ => map[]) + [map["mode" := x]]
    ensures WithList(map[], 0x3100, ms, BUTTON, 33) == WithOne(map[], 0x3120, 1, x)
  {
    OtherNames();
    UnsaidList(map[], 0x3100, ms, BUTTON, 32);
    OneSaid(map[], 0x3120, ms[32], BUTTON, |BUTTON|, 1);
    assert BUTTON[1] == Field("mode", 1);
  }

  lemma LateKeypad(x: Json)
    ensures WithKeypad(map[], 0, LatePad(x), TABLES) == WithOne(map[], 0x3120, 1, x)
  {
    var m := LatePad(x);
    OtherNames();
    LateObjects(x);
    Unsaid(map[], 0x3000, m, KEYPAD, |KEYPAD|);
    LateList(x, Objects(Get(m, "buttons")));
  }

  /** Its mode is collected as that of the first button of the second keypad. */
  lemma LateButtonLands(x: Json)
    requires !x.Null?
    ensures Supplied(LateButton(x), TABLES) == map[Slot(0x3120, 1) := ValueOf(x)]
  {
    var m := LateButton(x);
    OtherNames();
    LateObjects(x);
    Unsaid(map[], 0, m, DEVICE, |DEVICE|);
    UnsaidGroups(map[], m, GROUPS, |GROUPS|);
    LateKeypad(x);
    assert WithKeypads(map[], [LatePad(x)], TABLES, 0) == map[];
  }

  lemma LateButtonGood(x: Json)
    ensures Good(LateButton(x), TABLES)
  {
    var m := LateButton(x);
    LateObjects(x);
    OtherNames();
    assert GoodList(Objects(Get(LatePad(x), "buttons")), BUTTON);
  }
}
