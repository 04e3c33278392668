/** Canonical JSON: keys sorted, undefined fields dropped, no white space. The printed text determines the
    canonical value, and no printed object is a proper prefix of another text that begins with one. */
module CanonicalJson {
  import opened Outcomes
  import opened Calendar
  import opened InvoiceNumber

  /** A field whose value is None is one JavaScript holds as `undefined`. */
  datatype Json = Null | Bool(b: bool) | Num(n: int) | Str(s: string) | Arr(items: seq<Json>) | Obj(fields: seq<Field>)

  datatype Field = Field(name: string, value: Option<Json>)

  // ---- Canonical form ----

  function Canonicalize(v: Json): Json
    decreases v, 1
  {
    match v
    case Arr(items) => Arr(CanonicalItems(items))
    case Obj(fields) => Obj(CanonicalFields(fields))
    case _ => v
  }

  function CanonicalItems(items: seq<Json>): (r: seq<Json>)
    ensures |r| == |items|
    decreases items, 0
  {
    if items == [] then [] else [Canonicalize(items[0])] + CanonicalItems(items[1..])
  }

  /** Insertion in the order of the names. */
  function Place(fields: seq<Field>, f: Field): seq<Field> {
    if fields == [] || StringLess(f.name, fields[0].name) then [f] + fields else [fields[0]] + Place(fields[1..], f)
  }

  function CanonicalFields(fields: seq<Field>): seq<Field>
    decreases fields, 0
  {
    if fields == [] then []
    else
      var rest := CanonicalFields(fields[1..]);
      match fields[0].value
      case None => rest
      case Some(v) => Place(rest, Field(fields[0].name, Some(Canonicalize(v))))
  }

  // ---- The printed text ----

  const HEX: string := "0123456789abcdef"

  function Escaped(c: char): string {
    if c == '"' then "\\\""
    else if c == '\\' then "\\\\"
    else if c == '\U{8}' then "\\b"
    else if c == '\t' then "\\t"
    else if c == '\n' then "\\n"
    else if c == '\U{C}' then "\\f"
    else if c == '\r' then "\\r"
    else if c < ' ' then "\\u00" + [HEX[(c - '\0') as int / 16], HEX[(c - '\0') as int % 16]]
    else [c]
  }

  /** The characters of a string literal after its opening quote, its closing quote, and what follows. */
  function EscapeTo(s: string, rest: string): string {
    if s == [] then ['"'] + rest else Escaped(s[0]) + EscapeTo(s[1..], rest)
  }

  function QuoteTo(s: string, rest: string): string {
    ['"'] + EscapeTo(s, rest)
  }

  function PrintInt(n: int): string {
    if n < 0 then ['-'] + Decimal(-n) else Decimal(n)
  }

  /** The text of a value, followed by `rest`. */
  function PrintTo(v: Json, rest: string): string
    decreases v, 1
  {
    match v
    case Null => "null" + rest
    case Bool(b) => (if b then "true" else "false") + rest
    case Num(n) => PrintInt(n) + rest
    case Str(s) => QuoteTo(s, rest)
    case Arr(items) => ['['] + (if items == [] then [']'] + rest else PrintTo(items[0], ItemsTo(items[1..], rest)))
    case Obj(fields) => ['{'] + (if fields == [] then ['}'] + rest else FieldTo(fields[0], FieldsTo(fields[1..], rest)))
  }

  function ItemsTo(items: seq<Json>, rest: string): string
    decreases items, 0
  {
    if items == [] then [']'] + rest else [','] + PrintTo(items[0], ItemsTo(items[1..], rest))
  }

  function FieldsTo(fields: seq<Field>, rest: string): string
    decreases fields, 0
  {
    if fields == [] then ['}'] + rest else [','] + FieldTo(fields[0], FieldsTo(fields[1..], rest))
  }

  /** Only canonical values are printed, so the value is there. */
  function FieldTo(f: Field, rest: string): string
    decreases f, 2
  {
    QuoteTo(f.name, [':'] + (if f.value.Some? then PrintTo(f.value.value, rest) else "null" + rest))
  }

  function CanonicalJSON(v: Json): string {
    PrintTo(Canonicalize(v), "")
  }

  /** No undefined field at any depth. */
  predicate Defined(v: Json)
    decreases v, 1
  {
    match v
    case Arr(items) => forall i :: 0 <= i < |items| ==> Defined(items[i])
    case Obj(fields) => forall i :: 0 <= i < |fields| ==> fields[i].value.Some? && Defined(fields[i].value.value)
    case _ => true
  }
}
