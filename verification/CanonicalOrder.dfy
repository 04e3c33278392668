/** The canonical form of an object depends on its defined fields only, not on the order they were set in. */
module CanonicalOrder {
  import opened Outcomes
  import opened Calendar
  import opened CanonicalJson

  // ---- The order of names ----

  lemma {:induction false} LessIsStrict(a: string)
    ensures !StringLess(a, a)
  {
    if a != [] { LessIsStrict(a[1..]); }
  }

  lemma {:induction false} LessIsTotal(a: string, b: string)
    ensures a == b || StringLess(a, b) || StringLess(b, a)
  {
    if a != [] && b != [] && a[0] == b[0] {
      LessIsTotal(a[1..], b[1..]);
      assert a == [a[0]] + a[1..] && b == [b[0]] + b[1..];
    }
  }

  lemma {:induction false} LessIsTransitive(a: string, b: string, c: string)
    requires StringLess(a, b) && StringLess(b, c)
    ensures StringLess(a, c)
  {
    if a != [] && a[0] == b[0] && b[0] == c[0] { LessIsTransitive(a[1..], b[1..], c[1..]); }
  }

  // ---- Sorted fields ----

  predicate DistinctNames(fields: seq<Field>) {
    forall i, j :: 0 <= i < j < |fields| ==> fields[i].name != fields[j].name
  }

  predicate SortedNames(fields: seq<Field>) {
    forall i, j :: 0 <= i < j < |fields| ==> StringLess(fields[i].name, fields[j].name)
  }

  lemma {:induction false} PlaceMembers(fields: seq<Field>, f: Field)
    ensures forall x :: x in Place(fields, f) <==> x in fields || x == f
  {
    if fields != [] && !StringLess(f.name, fields[0].name) {
      PlaceMembers(fields[1..], f);
      assert fields == [fields[0]] + fields[1..];
    } else {
      assert Place(fields, f) == [f] + fields;
    }
  }

  lemma SortedFront(f: Field, fields: seq<Field>)
    requires SortedNames(fields) && (fields == [] || StringLess(f.name, fields[0].name))
    ensures SortedNames([f] + fields)
  {
    forall j | 0 <= j < |fields| ensures StringLess(f.name, fields[j].name) {
      if j > 0 { LessIsTransitive(f.name, fields[0].name, fields[j].name); }
    }
  }

  lemma {:induction false} PlaceSorted(fields: seq<Field>, f: Field)
    requires SortedNames(fields) && forall i :: 0 <= i < |fields| ==> fields[i].name != f.name
    ensures SortedNames(Place(fields, f))
  {
    hide StringLess;
    if fields == [] || StringLess(f.name, fields[0].name) {
      SortedFront(f, fields);
    } else {
      LessIsTotal(f.name, fields[0].name);
      var rest := fields[1..];
      assert fields[0].name != f.name && StringLess(fields[0].name, f.name);
      PlaceSorted(rest, f);
      PlaceMembers(rest, f);
      assert rest != [] ==> StringLess(fields[0].name, rest[0].name);
      PlaceHead(rest, f);
      SortedFront(fields[0], Place(rest, f));
    }
  }

  lemma PlaceHead(fields: seq<Field>, f: Field)
    ensures Place(fields, f) != [] && (Place(fields, f)[0] == f || (fields != [] && Place(fields, f)[0] == fields[0]))
  {
  }

  /** The canonical field of a defined field. */
  predicate CanonicalOf(x: Field, f: Field) {
    f.value.Some? && x == Field(f.name, Some(Canonicalize(f.value.value)))
  }

  ghost predicate FromField(fields: seq<Field>, x: Field) {
    exists i :: 0 <= i < |fields| && CanonicalOf(x, fields[i])
  }

  lemma FromFieldSplits(fields: seq<Field>, x: Field)
    requires fields != []
    ensures FromField(fields, x) <==> CanonicalOf(x, fields[0]) || FromField(fields[1..], x)
  {
    hide CanonicalOf;
    if FromField(fields, x) {
      var i :| 0 <= i < |fields| && CanonicalOf(x, fields[i]);
      if i > 0 { assert fields[1..][i - 1] == fields[i]; }
    }
    if FromField(fields[1..], x) {
      var i :| 0 <= i < |fields[1..]| && CanonicalOf(x, fields[1..][i]);
      assert fields[i + 1] == fields[1..][i];
    }
  }

  /** The canonical fields are exactly the canonical forms of the defined fields … */
  lemma {:induction false} CanonicalMembers(fields: seq<Field>, x: Field)
    ensures x in CanonicalFields(fields) <==> FromField(fields, x)
    decreases fields
  {
    if fields != [] {
      CanonicalMembers(fields[1..], x);
      FromFieldSplits(fields, x);
      if fields[0].value.Some? {
        PlaceMembers(CanonicalFields(fields[1..]), Field(fields[0].name, Some(Canonicalize(fields[0].value.value))));
      }
    }
  }

  /** … in strictly increasing order of name. */
  lemma {:induction false} CanonicalSorted(fields: seq<Field>)
    requires DistinctNames(fields)
    ensures SortedNames(CanonicalFields(fields))
    decreases fields
  {
    if fields != [] {
      CanonicalSorted(fields[1..]);
      if fields[0].value.Some? {
        var rest := CanonicalFields(fields[1..]);
        forall i | 0 <= i < |rest| ensures rest[i].name != fields[0].name {
          CanonicalMembers(fields[1..], rest[i]);
          assert rest[i] in rest;
          var j :| 0 <= j < |fields[1..]| && CanonicalOf(rest[i], fields[1..][j]);
          assert fields[1..][j] == fields[j + 1];
        }
        PlaceSorted(rest, Field(fields[0].name, Some(Canonicalize(fields[0].value.value))));
      }
    }
  }

  lemma HeadIsLeast(a: seq<Field>, x: Field)
    requires SortedNames(a) && a != [] && x in a
    ensures x == a[0] || StringLess(a[0].name, x.name)
  {
    var i :| 0 <= i < |a| && a[i] == x;
  }

  lemma FirstIsMember(a: seq<Field>)
    ensures a == [] || a[0] in a
  {
  }

  /** Two lists sorted by name with the same members are one list. */
  lemma {:induction false} SortedUnique(a: seq<Field>, b: seq<Field>)
    requires SortedNames(a) && SortedNames(b) && forall x :: x in a <==> x in b
    ensures a == b
    decreases |a|
  {
    if a == [] {
      FirstIsMember(b);
    } else {
      assert a[0] in a;
      HeadIsLeast(b, a[0]);
      assert b[0] in b;
      HeadIsLeast(a, b[0]);
      LessIsStrict(a[0].name);
      if a[0] != b[0] { LessIsTransitive(a[0].name, b[0].name, a[0].name); }
      TailMembers(a);
      TailMembers(b);
      SortedUnique(a[1..], b[1..]);
      assert a == [a[0]] + a[1..] && b == [b[0]] + b[1..];
    }
  }

  lemma TailMembers(a: seq<Field>)
    requires SortedNames(a) && a != []
    ensures forall x :: x in a[1..] <==> x in a && x != a[0]
    ensures SortedNames(a[1..])
  {
    LessIsStrict(a[0].name);
    assert a == [a[0]] + a[1..];
    hide StringLess;
    assert forall i :: 0 <= i < |a[1..]| ==> a[1..][i] == a[i + 1] && StringLess(a[0].name, a[i + 1].name);
  }

  /** The same fields set in another order, or with undefined ones added, have the same canonical form, and
      so the same text and the same hash. */
  lemma OrderDoesNotMatter(fields: seq<Field>, others: seq<Field>)
    requires DistinctNames(fields) && DistinctNames(others)
    requires forall f: Field :: f.value.Some? ==> (f in fields <==> f in others)
    ensures Canonicalize(Obj(fields)) == Canonicalize(Obj(others))
    ensures CanonicalJSON(Obj(fields)) == CanonicalJSON(Obj(others))
  {
    CanonicalSorted(fields);
    CanonicalSorted(others);
    forall x ensures x in CanonicalFields(fields) <==> x in CanonicalFields(others) {
      CanonicalMembers(fields, x);
      CanonicalMembers(others, x);
      SameSources(fields, others, x);
      SameSources(others, fields, x);
    }
    SortedUnique(CanonicalFields(fields), CanonicalFields(others));
  }

  lemma SameSources(fields: seq<Field>, others: seq<Field>, x: Field)
    requires forall f: Field :: f.value.Some? && f in fields ==> f in others
    ensures FromField(fields, x) ==> FromField(others, x)
  {
    if FromField(fields, x) {
      var i :| 0 <= i < |fields| && CanonicalOf(x, fields[i]);
      assert fields[i] in others;
      var j :| 0 <= j < |others| && others[j] == fields[i];
    }
  }

  /** A field whose name occurs once is read back from the canonical form. */
  lemma FieldReadBack(fields: seq<Field>, others: seq<Field>, i: nat, j: nat)
    requires CanonicalFields(fields) == CanonicalFields(others) && DistinctNames(others)
    requires i < |fields| && j < |others| && fields[i].name == others[j].name && fields[i].value.Some?
    ensures others[j].value.Some? && Canonicalize(others[j].value.value) == Canonicalize(fields[i].value.value)
  {
    var x := Field(fields[i].name, Some(Canonicalize(fields[i].value.value)));
    assert CanonicalOf(x, fields[i]);
    CanonicalMembers(fields, x);
    CanonicalMembers(others, x);
    var k :| 0 <= k < |others| && CanonicalOf(x, others[k]);
  }

  // ---- As it is computed: over the sorted keys, filling a new object ----

  /** An object has one value per key, at every depth. */
  predicate WellKeyed(v: Json)
    decreases v
  {
    match v
    case Arr(items) => forall i :: 0 <= i < |items| ==> WellKeyed(items[i])
    case Obj(fields) => DistinctNames(fields) && forall i :: 0 <= i < |fields| ==> (fields[i].value.Some? ==> WellKeyed(fields[i].value.value))
    case _ => true
  }

  /** `Object.keys(obj).sort()`, the fields coming along. */
  function SortFields(fields: seq<Field>): seq<Field> {
    if fields == [] then [] else Place(SortFields(fields[1..]), fields[0])
  }

  lemma {:induction false} SortFieldsMembers(fields: seq<Field>)
    ensures forall x :: x in SortFields(fields) <==> x in fields
  {
    if fields != [] {
      SortFieldsMembers(fields[1..]);
      PlaceMembers(SortFields(fields[1..]), fields[0]);
      assert fields == [fields[0]] + fields[1..];
    }
  }

  lemma {:induction false} SortFieldsSorted(fields: seq<Field>)
    requires DistinctNames(fields)
    ensures SortedNames(SortFields(fields))
  {
    if fields != [] {
      SortFieldsSorted(fields[1..]);
      SortFieldsMembers(fields[1..]);
      var rest := SortFields(fields[1..]);
      forall i | 0 <= i < |rest| ensures rest[i].name != fields[0].name {
        assert rest[i] in fields[1..];
        var j :| 0 <= j < |fields[1..]| && fields[1..][j] == rest[i];
        assert fields[j + 1] == rest[i];
      }
      PlaceSorted(rest, fields[0]);
    }
  }

  lemma {:induction false} SortedCanonical(fields: seq<Field>)
    requires SortedNames(fields)
    ensures SortedNames(CanonicalFields(fields)) && DistinctNames(fields)
  {
    forall i, j | 0 <= i < j < |fields| ensures fields[i].name != fields[j].name { LessIsStrict(fields[i].name); }
    CanonicalSorted(fields);
  }

  lemma CanonicalMemberNext(fields: seq<Field>, f: Field, x: Field)
    requires DistinctNames(fields) && DistinctNames(fields + [f])
    ensures x in CanonicalFields(fields + [f])
       <==> x in CanonicalFields(fields) || (f.value.Some? && x == Field(f.name, Some(Canonicalize(f.value.value))))
  {
    CanonicalMembers(fields, x);
    CanonicalMembers(fields + [f], x);
    FromFieldAppends(fields, f, x);
  }

  /** Canonicalising sorted fields appends them one by one. */
  lemma {:induction false} CanonicalNext(fields: seq<Field>, n: nat)
    requires SortedNames(fields) && n < |fields|
    ensures CanonicalFields(fields[..n + 1]) == CanonicalFields(fields[..n])
         + (if fields[n].value.None? then [] else [Field(fields[n].name, Some(Canonicalize(fields[n].value.value)))])
  {
    var before, more := fields[..n], fields[..n + 1];
    var added := if fields[n].value.None? then [] else [Field(fields[n].name, Some(Canonicalize(fields[n].value.value)))];
    SortedCanonical(before);
    SortedCanonical(more);
    var done := CanonicalFields(before);
    assert more == before + [fields[n]];
    forall x ensures x in done + added <==> x in CanonicalFields(more) { CanonicalMemberNext(before, fields[n], x); }
    forall i | 0 <= i < |done| ensures StringLess(done[i].name, fields[n].name) {
      CanonicalMembers(before, done[i]);
      assert done[i] in done;
      var j :| 0 <= j < |before| && CanonicalOf(done[i], before[j]);
    }
    SortedUnique(done + added, CanonicalFields(more));
  }

  lemma FromFieldAppends(fields: seq<Field>, f: Field, x: Field)
    ensures FromField(fields + [f], x) <==> FromField(fields, x) || CanonicalOf(x, f)
  {
    hide CanonicalOf;
    if FromField(fields + [f], x) {
      var i :| 0 <= i < |fields + [f]| && CanonicalOf(x, (fields + [f])[i]);
      if i < |fields| { assert fields[i] == (fields + [f])[i]; }
    }
    if FromField(fields, x) {
      var i :| 0 <= i < |fields| && CanonicalOf(x, fields[i]);
      assert (fields + [f])[i] == fields[i];
    }
    assert (fields + [f])[|fields|] == f;
  }

  lemma SortingKeepsCanonical(fields: seq<Field>)
    requires DistinctNames(fields)
    ensures CanonicalFields(SortFields(fields)) == CanonicalFields(fields)
    ensures SortedNames(SortFields(fields)) && forall x :: x in SortFields(fields) ==> x in fields
  {
    SortFieldsSorted(fields);
    SortFieldsMembers(fields);
    SortedCanonical(SortFields(fields));
    OrderDoesNotMatter(SortFields(fields), fields);
  }

  method CanonicalizeValue(v: Json) returns (r: Json)
    requires WellKeyed(v)
    ensures r == Canonicalize(v)
    decreases v
  {
    match v
    case Arr(items) =>
      var out := [];
      for i := 0 to |items|
        invariant out + CanonicalItems(items[i..]) == CanonicalItems(items)
      {
        var x := CanonicalizeValue(items[i]);
        assert items[i..][1..] == items[i + 1..];
        out := out + [x];
      }
      assert items[|items|..] == [] && out + [] == out;
      return Arr(out);
    case Obj(fields) =>
      SortingKeepsCanonical(fields);
      var sorted := SortFields(fields);
      var out := [];
      for i := 0 to |sorted|
        invariant out == CanonicalFields(sorted[..i])
      {
        CanonicalNext(sorted, i);
        assert sorted[i] in fields;
        if sorted[i].value.Some? {
          var x := CanonicalizeValue(sorted[i].value.value);
          out := out + [Field(sorted[i].name, Some(x))];
        }
      }
      assert sorted[..|sorted|] == sorted;
      return Obj(out);
    case _ => return v;
  }
}
