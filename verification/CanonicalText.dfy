/** The printed form of canonical JSON is injective and prefix-free. */
module CanonicalText {
  import opened Outcomes
  import opened Calendar
  import opened InvoiceNumber
  import opened CanonicalJson

  predicate IsDigit(c: char) {
    '0' <= c <= '9'
  }

  /** What follows a number does not go on with a digit. */
  predicate Ended(s: string) {
    s == [] || !IsDigit(s[0])
  }

  lemma ConsInjective(c: char, d: char, s: string, t: string)
    requires [c] + s == [d] + t
    ensures c == d && s == t
  {
    assert ([c] + s)[0] == c && ([d] + t)[0] == d;
    assert ([c] + s)[1..] == s && ([d] + t)[1..] == t;
  }

  lemma SameLengthSplit(a: string, b: string, x: string, y: string)
    requires |a| == |b| && a + x == b + y
    ensures a == b && x == y
  {
    assert a == (a + x)[..|a|] && b == (b + y)[..|b|];
    assert x == (a + x)[|a|..] && y == (b + y)[|b|..];
  }

  // ---- Strings ----

  lemma EscapedPrefixFree(c: char, d: char, x: string, y: string)
    requires Escaped(c) + x == Escaped(d) + y
    ensures c == d && x == y
  {
    hide Escaped;
    var a, b := Escaped(c) + x, Escaped(d) + y;
    EscapedHead(c);
    EscapedHead(d);
    assert a[0] == Escaped(c)[0] && b[0] == Escaped(d)[0];
    if Escaped(c)[0] == '\\' { assert a[1] == Escaped(c)[1] && b[1] == Escaped(d)[1]; }
    SameLengthSplit(Escaped(c), Escaped(d), x, y);
    EscapedInjective(c, d);
  }

  /** The first characters of an escaped character tell its length. */
  lemma EscapedHead(c: char)
    ensures var e := Escaped(c);
            |e| > 0 && if e[0] != '\\' then |e| == 1 else |e| >= 2 && |e| == if e[1] == 'u' then 6 else 2
  {
  }

  lemma EscapedInjective(c: char, d: char)
    requires Escaped(c) == Escaped(d)
    ensures c == d
  {
    if |Escaped(c)| == 6 {
      assert Escaped(c)[4] == Escaped(d)[4] && Escaped(c)[5] == Escaped(d)[5];
      HexApart((c - '\0') as int, (d - '\0') as int);
    } else {
      assert Escaped(c)[|Escaped(c)| - 1] == Escaped(d)[|Escaped(c)| - 1];
    }
  }

  lemma HexApart(m: nat, n: nat)
    requires m < 32 && n < 32 && HEX[m / 16] == HEX[n / 16] && HEX[m % 16] == HEX[n % 16]
    ensures m == n
  {
    assert forall i, j :: 0 <= i < 16 && 0 <= j < 16 && HEX[i] == HEX[j] ==> i == j;
  }

  lemma EscapeLead(s: string, x: string)
    ensures |EscapeTo(s, x)| > 0
    ensures EscapeTo(s, x)[0] == '"' <==> s == []
  {
    if s != [] { assert |Escaped(s[0])| > 0 && Escaped(s[0])[0] != '"'; }
  }

  lemma {:induction false} EscapePrefixFree(a: string, b: string, x: string, y: string)
    requires EscapeTo(a, x) == EscapeTo(b, y)
    ensures a == b && x == y
    decreases |a|
  {
    EscapeLead(a, x);
    EscapeLead(b, y);
    if a == [] {
      ConsInjective('"', '"', x, y);
    } else {
      hide Escaped;
      EscapedPrefixFree(a[0], b[0], EscapeTo(a[1..], x), EscapeTo(b[1..], y));
      EscapePrefixFree(a[1..], b[1..], x, y);
      assert a == [a[0]] + a[1..] && b == [b[0]] + b[1..];
    }
  }

  lemma QuotePrefixFree(a: string, b: string, x: string, y: string)
    requires QuoteTo(a, x) == QuoteTo(b, y)
    ensures a == b && x == y
  {
    ConsInjective('"', '"', EscapeTo(a, x), EscapeTo(b, y));
    EscapePrefixFree(a, b, x, y);
  }

  // ---- Numbers ----

  lemma ShorterDigits(a: string, b: string, x: string, y: string)
    requires AllDigits(b) && Ended(x) && a + x == b + y
    ensures |b| <= |a|
  {
    var s := a + x;
    assert s[|a|..] == x;
    assert forall i :: 0 <= i < |b| ==> s[i] == b[i];
  }

  lemma DigitsPrefixFree(a: string, b: string, x: string, y: string)
    requires AllDigits(a) && AllDigits(b) && Ended(x) && Ended(y) && a + x == b + y
    ensures a == b && x == y
  {
    ShorterDigits(a, b, x, y);
    ShorterDigits(b, a, y, x);
    SameLengthSplit(a, b, x, y);
  }

  lemma NaturalPrefixFree(m: nat, n: nat, x: string, y: string)
    requires Ended(x) && Ended(y) && Decimal(m) + x == Decimal(n) + y
    ensures m == n && x == y
  {
    DecimalReads(m);
    DecimalReads(n);
    DigitsPrefixFree(Decimal(m), Decimal(n), x, y);
  }

  lemma IntLead(n: int, x: string)
    ensures |PrintInt(n)| > 0
    ensures if n < 0 then (PrintInt(n) + x)[0] == '-' else IsDigit((PrintInt(n) + x)[0])
  {
    if n >= 0 { DecimalReads(n); }
  }

  lemma NegativePrint(n: int, x: string)
    requires n < 0
    ensures PrintInt(n) + x == ['-'] + (Decimal(-n) + x)
  {
    hide Decimal;
    assert ['-'] + Decimal(-n) + x == ['-'] + (Decimal(-n) + x);
  }

  lemma IntPrefixFree(m: int, n: int, x: string, y: string)
    requires Ended(x) && Ended(y) && PrintInt(m) + x == PrintInt(n) + y
    ensures m == n && x == y
  {
    hide PrintInt, Decimal;
    IntLead(m, x);
    IntLead(n, y);
    if m < 0 {
      NegativePrint(m, x);
      NegativePrint(n, y);
      ConsInjective('-', '-', Decimal(-m) + x, Decimal(-n) + y);
      NaturalPrefixFree(-m, -n, x, y);
    } else {
      NaturalPrint(m);
      NaturalPrint(n);
      NaturalPrefixFree(m, n, x, y);
    }
  }

  lemma NaturalPrint(n: nat)
    ensures PrintInt(n) == Decimal(n)
  {
    hide Decimal;
  }

  // ---- Values ----

  /** The first character tells the kinds apart. */
  function Lead(v: Json): char {
    match v
    case Null => 'n'
    case Bool(b) => if b then 't' else 'f'
    case Num(n) => if n < 0 then '-' else '0'
    case Str(_) => '"'
    case Arr(_) => '['
    case Obj(_) => '{'
  }

  lemma PrintLead(v: Json, x: string)
    ensures |PrintTo(v, x)| > 0
    ensures PrintTo(v, x)[0] == Lead(v) || (v.Num? && v.n >= 0 && IsDigit(PrintTo(v, x)[0]))
  {
    if v.Num? { IntLead(v.n, x); }
  }

  lemma SameLead(v: Json, w: Json, x: string, y: string)
    requires PrintTo(v, x) == PrintTo(w, y)
    ensures Lead(v) == Lead(w)
  {
    PrintLead(v, x);
    PrintLead(w, y);
    hide PrintTo;
  }

  /** A number must not be followed by a digit; any other value may be followed by anything. */
  predicate Closed(v: Json, x: string) {
    v.Num? ==> Ended(x)
  }

  lemma {:induction false} PrintPrefixFree(v: Json, w: Json, x: string, y: string)
    requires Defined(v) && Defined(w) && Closed(v, x) && Closed(w, y) && PrintTo(v, x) == PrintTo(w, y)
    ensures v == w && x == y
    decreases v, 3
  {
    SameLead(v, w, x, y);
    match v
    case Null => SameLengthSplit("null", "null", x, y);
    case Bool(b) => SameLengthSplit(if b then "true" else "false", if b then "true" else "false", x, y);
    case Num(m) => IntPrefixFree(m, w.n, x, y);
    case Str(a) => QuotePrefixFree(a, w.s, x, y);
    case Arr(items) => ArrPrefixFree(items, w.items, x, y);
    case Obj(fields) => ObjPrefixFree(fields, w.fields, x, y);
  }

  predicate AllDefined(items: seq<Json>) {
    forall i :: 0 <= i < |items| ==> Defined(items[i])
  }

  lemma {:induction false} ArrPrefixFree(a: seq<Json>, b: seq<Json>, x: string, y: string)
    requires AllDefined(a) && AllDefined(b) && PrintTo(Arr(a), x) == PrintTo(Arr(b), y)
    ensures a == b && x == y
    decreases a, 2
  {
    var s := if a == [] then [']'] + x else PrintTo(a[0], ItemsTo(a[1..], x));
    var t := if b == [] then [']'] + y else PrintTo(b[0], ItemsTo(b[1..], y));
    ConsInjective('[', '[', s, t);
    if a != [] { PrintLead(a[0], ItemsTo(a[1..], x)); }
    if b != [] { PrintLead(b[0], ItemsTo(b[1..], y)); }
    assert a == [] <==> s[0] == ']';
    assert b == [] <==> t[0] == ']';
    if a == [] {
      ConsInjective(']', ']', x, y);
    } else {
      hide PrintTo;
      FirstItem(a, b, x, y);
    }
  }

  /** The items of two lists whose texts agree, from the first on. */
  lemma {:induction false} FirstItem(a: seq<Json>, b: seq<Json>, x: string, y: string)
    requires a != [] && b != [] && AllDefined(a) && AllDefined(b)
    requires PrintTo(a[0], ItemsTo(a[1..], x)) == PrintTo(b[0], ItemsTo(b[1..], y))
    ensures a == b && x == y
    decreases a, 1
  {
    hide PrintTo, ItemsTo, Defined;
    ItemsEnded(a[1..], x);
    ItemsEnded(b[1..], y);
    PrintPrefixFree(a[0], b[0], ItemsTo(a[1..], x), ItemsTo(b[1..], y));
    ItemsPrefixFree(a[1..], b[1..], x, y);
    assert a == [a[0]] + a[1..] && b == [b[0]] + b[1..];
  }

  lemma ItemsEnded(items: seq<Json>, x: string)
    ensures Ended(ItemsTo(items, x)) && |ItemsTo(items, x)| > 0
    ensures ItemsTo(items, x)[0] == if items == [] then ']' else ','
  {
  }

  lemma {:induction false} ItemsPrefixFree(a: seq<Json>, b: seq<Json>, x: string, y: string)
    requires AllDefined(a) && AllDefined(b) && ItemsTo(a, x) == ItemsTo(b, y)
    ensures a == b && x == y
    decreases a, 2
  {
    ItemsEnded(a, x);
    ItemsEnded(b, y);
    if a == [] {
      ConsInjective(']', ']', x, y);
    } else {
      hide PrintTo;
      ConsInjective(',', ',', PrintTo(a[0], ItemsTo(a[1..], x)), PrintTo(b[0], ItemsTo(b[1..], y)));
      hide ItemsTo;
      FirstItem(a, b, x, y);
    }
  }

  predicate AllFieldsDefined(fields: seq<Field>) {
    forall i :: 0 <= i < |fields| ==> fields[i].value.Some? && Defined(fields[i].value.value)
  }

  lemma {:induction false} FieldPrefixFree(f: Field, g: Field, x: string, y: string)
    requires f.value.Some? && g.value.Some? && Defined(f.value.value) && Defined(g.value.value)
    requires Ended(x) && Ended(y) && FieldTo(f, x) == FieldTo(g, y)
    ensures f == g && x == y
    decreases f, 4
  {
    hide PrintTo;
    var p, q := PrintTo(f.value.value, x), PrintTo(g.value.value, y);
    QuotePrefixFree(f.name, g.name, [':'] + p, [':'] + q);
    ConsInjective(':', ':', p, q);
    PrintPrefixFree(f.value.value, g.value.value, x, y);
  }

  lemma FieldLead(f: Field, x: string)
    ensures |FieldTo(f, x)| > 0 && FieldTo(f, x)[0] == '"'
  {
  }

  lemma FieldsEnded(fields: seq<Field>, x: string)
    ensures Ended(FieldsTo(fields, x)) && |FieldsTo(fields, x)| > 0
    ensures FieldsTo(fields, x)[0] == if fields == [] then '}' else ','
  {
  }

  lemma {:induction false} ObjPrefixFree(a: seq<Field>, b: seq<Field>, x: string, y: string)
    requires AllFieldsDefined(a) && AllFieldsDefined(b) && PrintTo(Obj(a), x) == PrintTo(Obj(b), y)
    ensures a == b && x == y
    decreases a, 2
  {
    var s := if a == [] then ['}'] + x else FieldTo(a[0], FieldsTo(a[1..], x));
    var t := if b == [] then ['}'] + y else FieldTo(b[0], FieldsTo(b[1..], y));
    ConsInjective('{', '{', s, t);
    if a != [] { FieldLead(a[0], FieldsTo(a[1..], x)); }
    if b != [] { FieldLead(b[0], FieldsTo(b[1..], y)); }
    assert a == [] <==> s[0] == '}';
    assert b == [] <==> t[0] == '}';
    if a == [] {
      ConsInjective('}', '}', x, y);
    } else {
      hide FieldTo;
      FirstField(a, b, x, y);
    }
  }

  lemma {:induction false} FirstField(a: seq<Field>, b: seq<Field>, x: string, y: string)
    requires a != [] && b != [] && AllFieldsDefined(a) && AllFieldsDefined(b)
    requires FieldTo(a[0], FieldsTo(a[1..], x)) == FieldTo(b[0], FieldsTo(b[1..], y))
    ensures a == b && x == y
    decreases a, 1
  {
    hide FieldTo, FieldsTo, Defined;
    FieldsEnded(a[1..], x);
    FieldsEnded(b[1..], y);
    FieldPrefixFree(a[0], b[0], FieldsTo(a[1..], x), FieldsTo(b[1..], y));
    FieldsPrefixFree(a[1..], b[1..], x, y);
    assert a == [a[0]] + a[1..] && b == [b[0]] + b[1..];
  }

  lemma {:induction false} FieldsPrefixFree(a: seq<Field>, b: seq<Field>, x: string, y: string)
    requires AllFieldsDefined(a) && AllFieldsDefined(b) && FieldsTo(a, x) == FieldsTo(b, y)
    ensures a == b && x == y
    decreases a, 2
  {
    FieldsEnded(a, x);
    FieldsEnded(b, y);
    if a == [] {
      ConsInjective('}', '}', x, y);
    } else {
      hide FieldTo;
      ConsInjective(',', ',', FieldTo(a[0], FieldsTo(a[1..], x)), FieldTo(b[0], FieldsTo(b[1..], y)));
      hide FieldsTo;
      FirstField(a, b, x, y);
    }
  }

  // ---- What follows ----

  lemma {:induction false} EscapeAppends(s: string, x: string, y: string)
    ensures EscapeTo(s, x) + y == EscapeTo(s, x + y)
  {
    if s == [] {
      assert ['"'] + x + y == ['"'] + (x + y);
    } else {
      EscapeAppends(s[1..], x, y);
      assert Escaped(s[0]) + EscapeTo(s[1..], x) + y == Escaped(s[0]) + (EscapeTo(s[1..], x) + y);
    }
  }

  lemma QuoteAppends(s: string, x: string, y: string)
    ensures QuoteTo(s, x) + y == QuoteTo(s, x + y)
  {
    EscapeAppends(s, x, y);
    assert ['"'] + EscapeTo(s, x) + y == ['"'] + (EscapeTo(s, x) + y);
  }

  lemma {:induction false} PrintAppends(v: Json, x: string, y: string)
    ensures PrintTo(v, x) + y == PrintTo(v, x + y)
    decreases v, 1
  {
    match v
    case Null => assert "null" + x + y == "null" + (x + y);
    case Bool(b) => assert (if b then "true" else "false") + x + y == (if b then "true" else "false") + (x + y);
    case Num(n) => assert PrintInt(n) + x + y == PrintInt(n) + (x + y);
    case Str(s) => QuoteAppends(s, x, y);
    case Arr(items) =>
      if items == [] {
        assert ['['] + ([']'] + x) + y == ['['] + ([']'] + (x + y));
      } else {
        PrintAppends(items[0], ItemsTo(items[1..], x), y);
        ItemsAppend(items[1..], x, y);
        assert ['['] + PrintTo(items[0], ItemsTo(items[1..], x)) + y == ['['] + (PrintTo(items[0], ItemsTo(items[1..], x)) + y);
      }
    case Obj(fields) =>
      if fields == [] {
        assert ['{'] + (['}'] + x) + y == ['{'] + (['}'] + (x + y));
      } else {
        FieldAppends(fields[0], FieldsTo(fields[1..], x), y);
        FieldsAppend(fields[1..], x, y);
        assert ['{'] + FieldTo(fields[0], FieldsTo(fields[1..], x)) + y == ['{'] + (FieldTo(fields[0], FieldsTo(fields[1..], x)) + y);
      }
  }

  lemma {:induction false} ItemsAppend(items: seq<Json>, x: string, y: string)
    ensures ItemsTo(items, x) + y == ItemsTo(items, x + y)
    decreases items, 0
  {
    if items == [] {
      assert [']'] + x + y == [']'] + (x + y);
    } else {
      PrintAppends(items[0], ItemsTo(items[1..], x), y);
      ItemsAppend(items[1..], x, y);
      assert [','] + PrintTo(items[0], ItemsTo(items[1..], x)) + y == [','] + (PrintTo(items[0], ItemsTo(items[1..], x)) + y);
    }
  }

  lemma {:induction false} FieldAppends(f: Field, x: string, y: string)
    ensures FieldTo(f, x) + y == FieldTo(f, x + y)
    decreases f, 2
  {
    if f.value.Some? {
      PrintAppends(f.value.value, x, y);
      QuoteAppends(f.name, [':'] + PrintTo(f.value.value, x), y);
      assert [':'] + PrintTo(f.value.value, x) + y == [':'] + (PrintTo(f.value.value, x) + y);
    } else {
      QuoteAppends(f.name, [':'] + ("null" + x), y);
      assert [':'] + ("null" + x) + y == [':'] + ("null" + (x + y));
    }
  }

  lemma {:induction false} FieldsAppend(fields: seq<Field>, x: string, y: string)
    ensures FieldsTo(fields, x) + y == FieldsTo(fields, x + y)
    decreases fields, 0
  {
    if fields == [] {
      assert ['}'] + x + y == ['}'] + (x + y);
    } else {
      FieldAppends(fields[0], FieldsTo(fields[1..], x), y);
      FieldsAppend(fields[1..], x, y);
      assert [','] + FieldTo(fields[0], FieldsTo(fields[1..], x)) + y == [','] + (FieldTo(fields[0], FieldsTo(fields[1..], x)) + y);
    }
  }

  // ---- Canonical values are printed ----

  lemma {:induction false} PlaceDefined(fields: seq<Field>, f: Field)
    requires Defined(Obj(fields)) && f.value.Some? && Defined(f.value.value)
    ensures Defined(Obj(Place(fields, f)))
  {
    if fields != [] && !StringLess(f.name, fields[0].name) {
      assert Defined(Obj(fields[1..])) by {
        assert forall i :: 0 <= i < |fields[1..]| ==> fields[1..][i] == fields[i + 1];
      }
      PlaceDefined(fields[1..], f);
    }
  }

  lemma {:induction false} CanonicalDefined(v: Json)
    ensures Defined(Canonicalize(v))
    decreases v, 1
  {
    match v
    case Arr(items) => ItemsDefined(items);
    case Obj(fields) => FieldsDefined(fields);
    case _ =>
  }

  lemma {:induction false} ItemsDefined(items: seq<Json>)
    ensures forall i :: 0 <= i < |CanonicalItems(items)| ==> Defined(CanonicalItems(items)[i])
    decreases items, 0
  {
    if items != [] {
      CanonicalDefined(items[0]);
      ItemsDefined(items[1..]);
    }
  }

  lemma {:induction false} FieldsDefined(fields: seq<Field>)
    ensures Defined(Obj(CanonicalFields(fields)))
    decreases fields, 0
  {
    if fields != [] {
      FieldsDefined(fields[1..]);
      if fields[0].value.Some? {
        CanonicalDefined(fields[0].value.value);
        PlaceDefined(CanonicalFields(fields[1..]), Field(fields[0].name, Some(Canonicalize(fields[0].value.value))));
      }
    }
  }

  /** Equal texts come from equal canonical values; and the text of an object, followed by anything,
      determines both the object and what follows. */
  lemma CanonicalTextExact(v: Json, w: Json, x: string, y: string)
    requires v.Obj? && w.Obj?
    ensures CanonicalJSON(v) + x == CanonicalJSON(w) + y <==> Canonicalize(v) == Canonicalize(w) && x == y
  {
    var a, b := Canonicalize(v), Canonicalize(w);
    PrintAppends(a, "", x);
    PrintAppends(b, "", y);
    assert "" + x == x && "" + y == y;
    CanonicalDefined(v);
    CanonicalDefined(w);
    hide PrintTo, Canonicalize, Defined;
    if CanonicalJSON(v) + x == CanonicalJSON(w) + y {
      PrintPrefixFree(a, b, x, y);
    }
  }
}
