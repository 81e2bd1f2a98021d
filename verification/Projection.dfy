/**
 From a configuration document to the list of parameters written to a device: everything the
 board has, or only what the document mentions.
 */
module Projection {
  import opened Options
  import opened LittleEndian
  import opened Registry
  import opened Encoding

  /** What the document supplies, by key. */
  type Values = map<nat, Value>

  datatype Setting = Setting(key: nat, value: uint32)

  datatype Outcome = Written(params: seq<Setting>) | NoSuchParam | Refused

  /** What is encoded for a parameter: the document's value, or the firmware's default. */
  function Source(d: Def, vals: Values): Value {
    if Key(d) in vals then vals[Key(d)] else Number(d.field.def)
  }

  predicate Emitted(d: Def, vals: Values, partial: bool) { partial ==> Key(d) in vals }

  function EncodedOf(e: Env, d: Def, vals: Values): Option<uint32> { Encode(e, d.field, Source(d, vals)) }

  predicate Sorted(ps: seq<Setting>) {
    forall i, j | 0 <= i < j < |ps| :: ps[i].key < ps[j].key
  }

  ghost predicate UniqueKeys(defs: seq<Def>) {
    forall i, j | 0 <= i < j < |defs| :: Key(defs[i]) != Key(defs[j])
  }

  /** The list has exactly one entry for each of these parameters that is to be written,
      with its encoded value, and nothing else. */
  ghost predicate Holds(e: Env, defs: seq<Def>, vals: Values, partial: bool, ps: seq<Setting>) {
    && (forall p | p in ps :: exists d :: d in defs && EntryOf(e, d, vals, partial, p))
    && (forall d | d in defs && Emitted(d, vals, partial) :: exists p :: p in ps && EntryOf(e, d, vals, partial, p))
  }

  predicate EntryOf(e: Env, d: Def, vals: Values, partial: bool, p: Setting) {
    Emitted(d, vals, partial) && p.key == Key(d) && EncodedOf(e, d, vals) == Some(p.value)
  }

  /** Keeps a sorted list sorted. */
  method Insert(ps: seq<Setting>, p: Setting) returns (r: seq<Setting>)
    requires Sorted(ps) && forall q | q in ps :: q.key != p.key
    ensures Sorted(r) && forall q :: q in r <==> q in ps || q == p
  {
    var i := 0;
    while i < |ps| && ps[i].key < p.key
      invariant 0 <= i <= |ps|
      invariant forall j | 0 <= j < i :: ps[j].key < p.key
    {
      i := i + 1;
    }
    r := ps[..i] + [p] + ps[i..];
    assert i < |ps| ==> ps[i] in ps;
    Inserted(ps, p, i, r);
  }

  lemma Inserted(ps: seq<Setting>, p: Setting, i: nat, r: seq<Setting>)
    requires i <= |ps| && r == ps[..i] + [p] + ps[i..]
    ensures forall q :: q in r <==> q in ps || q == p
  {
    assert ps == ps[..i] + ps[i..];
  }

  /** Writes out the parameters of a table with unique keys. */
  method Emit(e: Env, defs: seq<Def>, vals: Values, partial: bool) returns (out: Option<seq<Setting>>)
    requires UniqueKeys(defs)
    ensures out.Some? ==> Sorted(out.value) && Holds(e, defs, vals, partial, out.value)
    ensures out.None? ==> exists d :: d in defs && Emitted(d, vals, partial) && EncodedOf(e, d, vals).None?
  {
    var ps: seq<Setting> := [];
    var i := 0;
    while i < |defs|
      invariant 0 <= i <= |defs|
      invariant Sorted(ps) && Holds(e, defs[..i], vals, partial, ps)
    {
      var d := defs[i];
      assert defs[..i + 1] == defs[..i] + [d];
      if Emitted(d, vals, partial) {
        var v := EncodedOf(e, d, vals);
        if v.None? {
          assert d in defs;
          return None;
        }
        var p := Setting(Key(d), v.value);
        NewKey(e, defs, vals, partial, ps, i);
        var r := Insert(ps, p);
        HoldsMore(e, defs[..i], d, vals, partial, ps, p, r);
        ps := r;
      } else {
        HoldsSame(e, defs[..i], d, vals, partial, ps);
      }
      i := i + 1;
    }
    assert defs[..i] == defs;
    out := Some(ps);
  }

  lemma NewKey(e: Env, defs: seq<Def>, vals: Values, partial: bool, ps: seq<Setting>, i: nat)
    requires UniqueKeys(defs) && i < |defs| && Holds(e, defs[..i], vals, partial, ps)
    ensures forall q | q in ps :: q.key != Key(defs[i])
  {
    forall q | q in ps
      ensures q.key != Key(defs[i])
    {
      var d :| d in defs[..i] && EntryOf(e, d, vals, partial, q);
      var j :| 0 <= j < i && defs[j] == d;
    }
  }

  lemma HoldsMore(e: Env, defs: seq<Def>, d: Def, vals: Values, partial: bool, ps: seq<Setting>, p: Setting,
                  r: seq<Setting>)
    requires Holds(e, defs, vals, partial, ps) && EntryOf(e, d, vals, partial, p)
    requires forall q :: q in r <==> q in ps || q == p
    ensures Holds(e, defs + [d], vals, partial, r)
  {
    forall q | q in r
      ensures exists c :: c in defs + [d] && EntryOf(e, c, vals, partial, q)
    {
      if q in ps {
        var c :| c in defs && EntryOf(e, c, vals, partial, q);
        assert c in defs + [d];
      } else {
        assert d in defs + [d];
      }
    }
    forall c | c in defs + [d] && Emitted(c, vals, partial)
      ensures exists q :: q in r && EntryOf(e, c, vals, partial, q)
    {
      if c in defs {
        var q :| q in ps && EntryOf(e, c, vals, partial, q);
        assert q in r;
      } else {
        assert p in r && EntryOf(e, c, vals, partial, p);
      }
    }
  }

  lemma HoldsSame(e: Env, defs: seq<Def>, d: Def, vals: Values, partial: bool, ps: seq<Setting>)
    requires Holds(e, defs, vals, partial, ps) && !Emitted(d, vals, partial)
    ensures Holds(e, defs + [d], vals, partial, ps)
  {
    forall q | q in ps
      ensures exists c :: c in defs + [d] && EntryOf(e, c, vals, partial, q)
    {
      var c :| c in defs && EntryOf(e, c, vals, partial, q);
      assert c in defs + [d];
    }
  }

  ghost predicate AllKnown(defs: seq<Def>, vals: Values) {
    forall k | k in vals :: exists d :: d in defs && Key(d) == k
  }

  ghost predicate AllEncode(e: Env, defs: seq<Def>, vals: Values, partial: bool) {
    forall d | d in defs && Emitted(d, vals, partial) :: EncodedOf(e, d, vals).Some?
  }

  /** The projection of a document onto a board's table. */
  method Project(e: Env, reg: Table, vals: Values, partial: bool) returns (o: Outcome)
    requires UniqueKeys(reg.defs) && reg.byKey == KeyMap(reg.defs, |reg.defs|)
    ensures o.NoSuchParam? <==> !AllKnown(reg.defs, vals)
    ensures o.Written? <==> AllKnown(reg.defs, vals) && AllEncode(e, reg.defs, vals, partial)
    ensures o.Written? ==> Sorted(o.params) && Holds(e, reg.defs, vals, partial, o.params)
    ensures o.Written? ==> KeysOf(o.params) == if partial then vals.Keys else set d | d in reg.defs :: Key(d)
  {
    var known := CheckKeys(reg, vals);
    if !known {
      return NoSuchParam;
    }
    var out := Emit(e, reg.defs, vals, partial);
    if out.None? {
      return Refused;
    }
    o := Written(out.value);
    KeysWritten(e, reg.defs, vals, partial, out.value);
  }

  /** Every supplied key is in the table. */
  method CheckKeys(reg: Table, vals: Values) returns (known: bool)
    requires reg.byKey == KeyMap(reg.defs, |reg.defs|)
    ensures known <==> AllKnown(reg.defs, vals)
  {
    var left := vals.Keys;
    while left != {}
      invariant left <= vals.Keys
      invariant forall k | k in vals && k !in left :: exists d :: d in reg.defs && Key(d) == k
      decreases left
    {
      var k :| k in left;
      var i;
      i, known := reg.LookupKey(k);
      if !known {
        return;
      }
      left := left - {k};
    }
    known := true;
  }

  function KeysOf(ps: seq<Setting>): set<nat> { set p | p in ps :: p.key }

  /** Full mode writes every key of the board, partial mode exactly the document's. */
  lemma KeysWritten(e: Env, defs: seq<Def>, vals: Values, partial: bool, ps: seq<Setting>)
    requires Holds(e, defs, vals, partial, ps) && AllKnown(defs, vals)
    ensures KeysOf(ps) == if partial then vals.Keys else set d | d in defs :: Key(d)
  {
    var all := set d | d in defs :: Key(d);
    forall k | k in KeysOf(ps)
      ensures k in all && (partial ==> k in vals)
    {
      var p :| p in ps && p.key == k;
      var d :| d in defs && EntryOf(e, d, vals, partial, p);
    }
    forall k | if partial then k in vals else k in all
      ensures k in KeysOf(ps)
    {
      var d :| d in defs && Key(d) == k;
      assert Emitted(d, vals, partial);
      var p :| p in ps && EntryOf(e, d, vals, partial, p);
    }
  }
}
