/**
 * JSON values and canonicalize() of scripts/migrate-sqlite-to-postgres.mjs.
 *
 * Strings are sequences of UTF-16 code units, which is what sort() compares. Objects
 * list their properties in JavaScript's own order: array indices ascending, then the
 * other keys as they were created (section 10.1.11.1 of ECMA-262).
 */
module Json {

  type CodeUnit = x: int | 0 <= x < 0x1_0000
  type Text = seq<CodeUnit>

  datatype Value =
    | Null
    | Bool(b: bool)
    | Num(n: int)
    | Str(s: Text)
    | Arr(items: seq<Value>)
    | Obj(fields: seq<Field>)

  datatype Field = Field(key: Text, value: Value)

  ghost predicate DistinctKeys(fs: seq<Field>) {
    forall i, j | 0 <= i < j < |fs| :: fs[i].key != fs[j].key
  }

  ghost predicate WellFormed(v: Value) {
    match v
    case Arr(items) => forall i | 0 <= i < |items| :: WellFormed(items[i])
    case Obj(fields) => DistinctKeys(fields) && forall i | 0 <= i < |fields| :: WellFormed(fields[i].value)
    case _ => true
  }

  /** Equal up to the order of object keys, at every depth; array order counts. */
  ghost predicate Equiv(a: Value, b: Value)
    decreases a
  {
    if a.Arr? && b.Arr? then
      |a.items| == |b.items| && forall i | 0 <= i < |a.items| :: Equiv(a.items[i], b.items[i])
    else if a.Obj? && b.Obj? then
      && Keys(a.fields) == Keys(b.fields)
      && forall i | 0 <= i < |a.fields| ::
           forall j | 0 <= j < |b.fields| && b.fields[j].key == a.fields[i].key :: Equiv(a.fields[i].value, b.fields[j].value)
    else a == b
  }

  ghost function Keys(fs: seq<Field>): set<Text> {
    set f | f in fs :: f.key
  }

  // ---------------------------------------------------------------- key orders

  /** The default order of Array.prototype.sort on strings. */
  predicate Less(a: Text, b: Text) {
    b != [] && (a == [] || a[0] < b[0] || (a[0] == b[0] && Less(a[1..], b[1..])))
  }

  const MAX_INDEX: Text := [52, 50, 57, 52, 57, 54, 55, 50, 57, 52] // "4294967294"

  /** Canonical decimal forms of 0 .. 2^32 - 2. */
  predicate IsIndex(k: Text) {
    && 1 <= |k| <= 10 && (forall i | 0 <= i < |k| :: 48 <= k[i] <= 57)
    && (k[0] == 48 ==> |k| == 1)
    && (|k| == 10 ==> !Less(MAX_INDEX, k))
  }

  /** Order of two property keys of an object whose string keys were created in sorted order; indices compare as numbers. */
  predicate Before(a: Text, b: Text) {
    if IsIndex(a) && IsIndex(b) then |a| < |b| || (|a| == |b| && Less(a, b))
    else if IsIndex(a) || IsIndex(b) then IsIndex(a)
    else Less(a, b)
  }

  // ---------------------------------------------------------------- canonicalize

  function InsertByKey(fs: seq<Field>, f: Field): seq<Field> {
    if fs == [] || Less(f.key, fs[0].key) then [f] + fs else [fs[0]] + InsertByKey(fs[1..], f)
  }

  function SortByKey(fs: seq<Field>): seq<Field> {
    if fs == [] then [] else InsertByKey(SortByKey(fs[1..]), fs[0])
  }

  /** Creating a new property: an index finds its place among the indices, any other key goes last. */
  function Define(fs: seq<Field>, f: Field): seq<Field> {
    if fs == [] then [f]
    else if IsIndex(f.key) && Before(f.key, fs[0].key) then [f] + fs
    else [fs[0]] + Define(fs[1..], f)
  }

  function FromEntries(fs: seq<Field>): seq<Field> {
    if fs == [] then [] else Define(FromEntries(fs[..|fs| - 1]), fs[|fs| - 1])
  }

  function Canonicalize(v: Value): Value {
    match v
    case Arr(items) => Arr(CanonicalItems(items))
    case Obj(fields) => Obj(FromEntries(SortByKey(CanonicalFields(fields))))
    case _ => v
  }

  function CanonicalItems(vs: seq<Value>): (r: seq<Value>)
    ensures |r| == |vs|
  {
    if vs == [] then [] else [Canonicalize(vs[0])] + CanonicalItems(vs[1..])
  }

  function CanonicalFields(fs: seq<Field>): (r: seq<Field>)
    ensures |r| == |fs|
  {
    if fs == [] then [] else [Field(fs[0].key, Canonicalize(fs[0].value))] + CanonicalFields(fs[1..])
  }

  // ---------------------------------------------------------------- the order is strict and total

  lemma {:induction false} LessIsStrict(a: Text, b: Text)
    ensures !(Less(a, b) && Less(b, a))
    ensures a == b || Less(a, b) || Less(b, a)
  {
    if a != [] && b != [] {
      LessIsStrict(a[1..], b[1..]);
      assert a == [a[0]] + a[1..] && b == [b[0]] + b[1..];
    }
  }

  lemma {:induction false} LessIsTransitive(a: Text, b: Text, c: Text)
    requires Less(a, b) && Less(b, c)
    ensures Less(a, c)
  {
    if a != [] && a[0] == b[0] == c[0] {
      LessIsTransitive(a[1..], b[1..], c[1..]);
    }
  }

  lemma BeforeIsStrict(a: Text, b: Text)
    ensures !(Before(a, b) && Before(b, a)) && !Before(a, a)
    ensures a == b || Before(a, b) || Before(b, a)
  {
    LessIsStrict(a, b);
    LessIsStrict(a, a);
  }

  lemma BeforeIsTransitive(a: Text, b: Text, c: Text)
    requires Before(a, b) && Before(b, c)
    ensures Before(a, c)
  {
    if Less(a, b) && Less(b, c) {
      LessIsTransitive(a, b, c);
    }
  }

  // ---------------------------------------------------------------- sorting

  ghost predicate LexSorted(fs: seq<Field>) {
    forall i, j | 0 <= i < j < |fs| :: Less(fs[i].key, fs[j].key)
  }

  ghost predicate Ordered(fs: seq<Field>) {
    forall i, j | 0 <= i < j < |fs| :: Before(fs[i].key, fs[j].key)
  }

  ghost predicate Same(fs: seq<Field>, gs: seq<Field>) {
    |fs| == |gs| && forall f :: f in fs <==> f in gs
  }

  lemma {:induction false} Inserted(fs: seq<Field>, f: Field)
    requires LexSorted(fs) && forall g | g in fs :: g.key != f.key
    ensures LexSorted(InsertByKey(fs, f)) && Same(InsertByKey(fs, f), [f] + fs)
  {
    if fs != [] && !Less(f.key, fs[0].key) {
      LessIsStrict(f.key, fs[0].key);
      Inserted(fs[1..], f);
      var r := InsertByKey(fs[1..], f);
      assert fs == [fs[0]] + fs[1..];
      forall j | 0 <= j < |r| ensures Less(fs[0].key, r[j].key) {
        assert r[j] in [f] + fs[1..];
      }
    } else if fs != [] {
      forall j | 0 <= j < |fs| ensures Less(f.key, fs[j].key) {
        if j > 0 { LessIsTransitive(f.key, fs[0].key, fs[j].key); }
      }
    }
  }

  lemma {:induction false} SortByKeySorts(fs: seq<Field>)
    requires DistinctKeys(fs)
    ensures LexSorted(SortByKey(fs)) && Same(SortByKey(fs), fs)
  {
    if fs != [] {
      SortByKeySorts(fs[1..]);
      assert fs == [fs[0]] + fs[1..];
      Inserted(SortByKey(fs[1..]), fs[0]);
    }
  }

  lemma {:induction false} Defined(fs: seq<Field>, f: Field)
    requires Ordered(fs) && (forall g | g in fs :: g.key != f.key)
    requires IsIndex(f.key) || forall g | g in fs :: Before(g.key, f.key)
    ensures Ordered(Define(fs, f)) && Same(Define(fs, f), [f] + fs)
  {
    if fs != [] {
      assert fs == [fs[0]] + fs[1..];
      BeforeIsStrict(f.key, fs[0].key);
      if IsIndex(f.key) && Before(f.key, fs[0].key) {
        forall j | 0 <= j < |fs| ensures Before(f.key, fs[j].key) {
          if j > 0 { BeforeIsTransitive(f.key, fs[0].key, fs[j].key); }
        }
      } else {
        Defined(fs[1..], f);
        var r := Define(fs[1..], f);
        forall j | 0 <= j < |r| ensures Before(fs[0].key, r[j].key) {
          assert r[j] in [f] + fs[1..];
        }
      }
    }
  }

  lemma {:induction false} FromEntriesOrders(fs: seq<Field>)
    requires LexSorted(fs)
    ensures Ordered(FromEntries(fs)) && Same(FromEntries(fs), fs)
  {
    if fs != [] {
      var n := |fs| - 1;
      var r := FromEntries(fs[..n]);
      FromEntriesOrders(fs[..n]);
      assert fs == fs[..n] + [fs[n]];
      forall g | g in r ensures g.key != fs[n].key && (IsIndex(fs[n].key) || Before(g.key, fs[n].key)) {
        assert g in fs[..n];
        LessIsStrict(g.key, g.key);
      }
      Defined(r, fs[n]);
    }
  }

  lemma HasMember(fs: seq<Field>)
    requires fs != []
    ensures exists f :: f in fs
  {
    assert fs[0] in fs;
  }

  /** A set of fields has one ordered listing. */
  lemma {:induction false} OrderedIsUnique(fs: seq<Field>, gs: seq<Field>)
    requires Ordered(fs) && Ordered(gs) && forall f :: f in fs <==> f in gs
    ensures fs == gs
  {
    if fs == [] {
      if gs != [] { HasMember(gs); }
    } else {
      assert fs[0] in gs && gs != [];
      assert gs[0] in fs;
      FirstIsLeast(fs, gs[0]);
      FirstIsLeast(gs, fs[0]);
      BeforeIsStrict(fs[0].key, gs[0].key);
      assert fs[0] == gs[0];
      forall f ensures f in fs[1..] <==> f in gs[1..] {
        TailLacksFirst(fs, f);
        TailLacksFirst(gs, f);
      }
      OrderedIsUnique(fs[1..], gs[1..]);
      assert fs == [fs[0]] + fs[1..] && gs == [gs[0]] + gs[1..];
    }
  }

  lemma FirstIsLeast(fs: seq<Field>, f: Field)
    requires Ordered(fs) && f in fs
    ensures f == fs[0] || Before(fs[0].key, f.key)
  {
  }

  lemma TailLacksFirst(fs: seq<Field>, f: Field)
    requires Ordered(fs) && fs != []
    ensures f in fs[1..] <==> f in fs && f != fs[0]
  {
    BeforeIsStrict(fs[0].key, fs[0].key);
    assert fs == [fs[0]] + fs[1..];
  }

  // ---------------------------------------------------------------- canonical forms

  /** Results of canonicalize: ordered objects all the way down. */
  ghost predicate Canonical(v: Value) {
    match v
    case Arr(items) => forall i | 0 <= i < |items| :: Canonical(items[i])
    case Obj(fields) => Ordered(fields) && forall i | 0 <= i < |fields| :: Canonical(fields[i].value)
    case _ => true
  }

  lemma {:induction false} ItemsPointwise(vs: seq<Value>)
    ensures forall i | 0 <= i < |vs| :: CanonicalItems(vs)[i] == Canonicalize(vs[i])
  {
    if vs != [] { ItemsPointwise(vs[1..]); }
  }

  lemma {:induction false} FieldsPointwise(fs: seq<Field>)
    ensures forall i | 0 <= i < |fs| :: CanonicalFields(fs)[i] == Field(fs[i].key, Canonicalize(fs[i].value))
  {
    if fs != [] { FieldsPointwise(fs[1..]); }
  }

  /** The fields of a canonicalized object: ordered, and one for each field of the original. */
  lemma ObjectFields(fs: seq<Field>)
    requires DistinctKeys(fs)
    ensures var c := Canonicalize(Obj(fs)).fields;
      && Ordered(c) && |c| == |fs|
      && (forall i | 0 <= i < |fs| :: Field(fs[i].key, Canonicalize(fs[i].value)) in c)
      && (forall g | g in c :: exists i :: 0 <= i < |fs| && g == Field(fs[i].key, Canonicalize(fs[i].value)))
  {
    var cs := CanonicalFields(fs);
    FieldsPointwise(fs);
    SortByKeySorts(cs);
    FromEntriesOrders(SortByKey(cs));
    forall i | 0 <= i < |fs| ensures Field(fs[i].key, Canonicalize(fs[i].value)) in Canonicalize(Obj(fs)).fields {
      assert cs[i] in cs;
    }
  }

  lemma OrderedKeysDiffer(fs: seq<Field>)
    requires Ordered(fs)
    ensures DistinctKeys(fs)
  {
    forall i, j | 0 <= i < j < |fs| ensures fs[i].key != fs[j].key {
      BeforeIsStrict(fs[i].key, fs[j].key);
    }
  }

  lemma CanonicalObject(fs: seq<Field>, gs: seq<Field>)
    requires DistinctKeys(fs) && Ordered(gs)
    requires forall i | 0 <= i < |fs| ::
      var w := Canonicalize(fs[i].value); Field(fs[i].key, w) in gs && Canonical(w) && WellFormed(w) && Equiv(fs[i].value, w)
    requires forall g | g in gs :: exists i :: 0 <= i < |fs| && g == Field(fs[i].key, Canonicalize(fs[i].value))
    ensures Canonical(Obj(gs)) && WellFormed(Obj(gs)) && Equiv(Obj(fs), Obj(gs))
  {
    OrderedKeysDiffer(gs);
    ObjectEquiv(fs, gs);
    forall j | 0 <= j < |gs| ensures Canonical(gs[j].value) && WellFormed(gs[j].value) {
      assert gs[j] in gs;
    }
  }

  /** canonicalize yields a canonical form equivalent to its argument. */
  lemma {:induction false} CanonicalizeIsCanonical(v: Value)
    requires WellFormed(v)
    ensures Canonical(Canonicalize(v)) && WellFormed(Canonicalize(v)) && Equiv(v, Canonicalize(v))
  {
    var c := Canonicalize(v);
    match v
    case Arr(items) =>
      ItemsPointwise(items);
      forall i | 0 <= i < |items| ensures Canonical(c.items[i]) && WellFormed(c.items[i]) && Equiv(items[i], c.items[i]) {
        CanonicalizeIsCanonical(items[i]);
      }
    case Obj(fs) =>
      forall i | 0 <= i < |fs|
        ensures var w := Canonicalize(fs[i].value); Canonical(w) && WellFormed(w) && Equiv(fs[i].value, w)
      {
        CanonicalizeIsCanonical(fs[i].value);
      }
      ObjectFields(fs);
      CanonicalObject(fs, c.fields);
    case _ =>
  }

  lemma ObjectEquiv(fs: seq<Field>, gs: seq<Field>)
    requires DistinctKeys(fs) && Ordered(gs)
    requires forall i | 0 <= i < |fs| :: Field(fs[i].key, Canonicalize(fs[i].value)) in gs && Equiv(fs[i].value, Canonicalize(fs[i].value))
    requires forall g | g in gs :: exists i :: 0 <= i < |fs| && g == Field(fs[i].key, Canonicalize(fs[i].value))
    ensures Equiv(Obj(fs), Obj(gs))
  {
    forall k ensures k in Keys(fs) <==> k in Keys(gs) {
      if k in Keys(fs) {
        var f :| f in fs && f.key == k;
        assert Field(f.key, Canonicalize(f.value)) in gs;
      }
      if k in Keys(gs) {
        var g :| g in gs && g.key == k;
        var i :| 0 <= i < |fs| && g == Field(fs[i].key, Canonicalize(fs[i].value));
        assert fs[i] in fs;
      }
    }
    forall i, j | 0 <= i < |fs| && 0 <= j < |gs| && gs[j].key == fs[i].key ensures Equiv(fs[i].value, gs[j].value) {
      assert gs[j] in gs;
      var m :| 0 <= m < |fs| && gs[j] == Field(fs[m].key, Canonicalize(fs[m].value));
      assert m == i;
    }
  }

  /** Equivalent values have the same canonical form. */
  lemma {:induction false} EquivalentsMeet(a: Value, b: Value)
    requires WellFormed(a) && WellFormed(b) && Equiv(a, b)
    ensures Canonicalize(a) == Canonicalize(b)
  {
    if a.Arr? && b.Arr? {
      ItemsPointwise(a.items);
      ItemsPointwise(b.items);
      forall i | 0 <= i < |a.items| ensures Canonicalize(a).items[i] == Canonicalize(b).items[i] {
        EquivalentsMeet(a.items[i], b.items[i]);
      }
    } else if a.Obj? && b.Obj? {
      var fs, gs := a.fields, b.fields;
      ObjectFields(fs);
      ObjectFields(gs);
      forall i, j | 0 <= i < |fs| && 0 <= j < |gs| && gs[j].key == fs[i].key
        ensures Canonicalize(fs[i].value) == Canonicalize(gs[j].value)
      {
        EquivalentsMeet(fs[i].value, gs[j].value);
      }
      SameFields(fs, gs);
    }
  }

  lemma SameFields(fs: seq<Field>, gs: seq<Field>)
    requires DistinctKeys(fs) && DistinctKeys(gs) && Keys(fs) == Keys(gs)
    requires forall i, j | 0 <= i < |fs| && 0 <= j < |gs| && gs[j].key == fs[i].key :: Canonicalize(fs[i].value) == Canonicalize(gs[j].value)
    ensures Canonicalize(Obj(fs)) == Canonicalize(Obj(gs))
  {
    var c, d := Canonicalize(Obj(fs)).fields, Canonicalize(Obj(gs)).fields;
    ObjectFields(fs);
    ObjectFields(gs);
    hide Canonicalize;
    forall f ensures f in c <==> f in d {
      if f in c {
        var i :| 0 <= i < |fs| && f == Field(fs[i].key, Canonicalize(fs[i].value));
        assert fs[i].key in Keys(fs);
        var g :| g in gs && g.key == fs[i].key;
        var j :| 0 <= j < |gs| && gs[j] == g;
      }
      if f in d {
        var j :| 0 <= j < |gs| && f == Field(gs[j].key, Canonicalize(gs[j].value));
        assert gs[j].key in Keys(gs);
        var g :| g in fs && g.key == gs[j].key;
        var i :| 0 <= i < |fs| && fs[i] == g;
      }
    }
    OrderedIsUnique(c, d);
    assert Canonicalize(Obj(fs)).Obj? && Canonicalize(Obj(gs)).Obj? by { ObjStaysObj(fs); ObjStaysObj(gs); }
  }

  lemma ObjStaysObj(fs: seq<Field>)
    ensures Canonicalize(Obj(fs)).Obj?
  {
  }

  // ---------------------------------------------------------------- Equiv is an equivalence

  lemma {:induction false} EquivSymmetric(a: Value, b: Value)
    requires Equiv(a, b)
    ensures Equiv(b, a)
    decreases a
  {
    if a.Arr? && b.Arr? {
      forall i | 0 <= i < |a.items| ensures Equiv(b.items[i], a.items[i]) {
        EquivSymmetric(a.items[i], b.items[i]);
      }
    } else if a.Obj? && b.Obj? {
      forall j, i | 0 <= j < |b.fields| && 0 <= i < |a.fields| && a.fields[i].key == b.fields[j].key
        ensures Equiv(b.fields[j].value, a.fields[i].value)
      {
        EquivSymmetric(a.fields[i].value, b.fields[j].value);
      }
    }
  }

  lemma {:induction false} EquivTransitive(a: Value, b: Value, c: Value)
    requires Equiv(a, b) && Equiv(b, c)
    ensures Equiv(a, c)
    decreases a
  {
    if a.Arr? && b.Arr? && c.Arr? {
      forall i | 0 <= i < |a.items| ensures Equiv(a.items[i], c.items[i]) {
        EquivTransitive(a.items[i], b.items[i], c.items[i]);
      }
    } else if a.Obj? && b.Obj? && c.Obj? {
      forall i, k | 0 <= i < |a.fields| && 0 <= k < |c.fields| && c.fields[k].key == a.fields[i].key
        ensures Equiv(a.fields[i].value, c.fields[k].value)
      {
        assert a.fields[i].key in Keys(a.fields);
        var g :| g in b.fields && g.key == a.fields[i].key;
        var j :| 0 <= j < |b.fields| && b.fields[j] == g;
        EquivTransitive(a.fields[i].value, b.fields[j].value, c.fields[k].value);
      }
    }
  }

  // ---------------------------------------------------------------- the normal form

  /** Equal canonical forms mean exactly: equal up to object key order at every depth. */
  lemma {:induction false} CanonicalFormDecidesEquivalence(a: Value, b: Value)
    requires WellFormed(a) && WellFormed(b)
    ensures Canonicalize(a) == Canonicalize(b) <==> Equiv(a, b)
  {
    if Equiv(a, b) {
      EquivalentsMeet(a, b);
    }
    if Canonicalize(a) == Canonicalize(b) {
      CanonicalizeIsCanonical(a);
      CanonicalizeIsCanonical(b);
      EquivSymmetric(b, Canonicalize(b));
      EquivTransitive(a, Canonicalize(a), b);
    }
  }

  lemma {:induction false} CanonicalizeIsIdempotent(v: Value)
    requires WellFormed(v)
    ensures Canonicalize(Canonicalize(v)) == Canonicalize(v)
  {
    CanonicalizeIsCanonical(v);
    EquivalentsMeet(v, Canonicalize(v));
  }

  /** Canonical forms are the fixed points: each class of equivalent values has one. */
  lemma {:induction false} CanonicalMeansFixed(v: Value)
    requires WellFormed(v)
    ensures Canonical(v) <==> Canonicalize(v) == v
  {
    CanonicalizeIsCanonical(v);
    if Canonical(v) {
      CanonicalsAreUnique(v, Canonicalize(v));
    }
  }

  lemma {:induction false} CanonicalsAreUnique(a: Value, b: Value)
    requires Canonical(a) && Canonical(b) && Equiv(a, b)
    ensures a == b
    decreases a
  {
    if a.Arr? && b.Arr? {
      forall i | 0 <= i < |a.items| ensures a.items[i] == b.items[i] {
        CanonicalsAreUnique(a.items[i], b.items[i]);
      }
    } else if a.Obj? && b.Obj? {
      var fs, gs := a.fields, b.fields;
      forall i, j | 0 <= i < |fs| && 0 <= j < |gs| && gs[j].key == fs[i].key ensures fs[i] == gs[j] {
        CanonicalsAreUnique(fs[i].value, gs[j].value);
      }
      forall f ensures f in fs <==> f in gs {
        if f in fs {
          assert f.key in Keys(gs);
        }
        if f in gs {
          assert f.key in Keys(fs);
        }
      }
      OrderedIsUnique(fs, gs);
    }
  }
}
