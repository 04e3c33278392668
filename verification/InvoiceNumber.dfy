/** The printed invoice number `OBK-{year}-{seq}`, the sequence zero-padded to six digits, and the
    reader that recovers year and sequence from it. */
module InvoiceNumber {
  import opened Calendar

  /** `String(n)` of a natural number. */
  function Decimal(n: nat): (s: string)
    ensures |s| > 0
  {
    if n < 10 then [Digit(n)] else Decimal(n / 10) + [Digit(n % 10)]
  }

  function DigitValue(c: char): nat {
    if '0' <= c <= '9' then (c - '0') as nat else 0
  }

  function Value(s: string): nat {
    if s == [] then 0 else 10 * Value(s[..|s| - 1]) + DigitValue(s[|s| - 1])
  }

  predicate AllDigits(s: string) {
    forall i :: 0 <= i < |s| ==> '0' <= s[i] <= '9'
  }

  function Zeros(k: nat): (s: string)
    ensures |s| == k
    ensures AllDigits(s)
  {
    seq(k, _ => '0')
  }

  /** `padStart(width, '0')`. */
  function PadStart(s: string, width: nat): string {
    if |s| < width then Zeros(width - |s|) + s else s
  }

  const PREFIX: string := "OBK-"

  function Format(year: nat, sequence: nat): string {
    PREFIX + Decimal(year) + "-" + PadStart(Decimal(sequence), 6)
  }

  lemma {:induction false} DecimalReads(n: nat)
    ensures AllDigits(Decimal(n)) && Value(Decimal(n)) == n
  {
    if n >= 10 {
      DecimalReads(n / 10);
      var s := Decimal(n / 10);
      var t := s + [Digit(n % 10)];
      assert t[..|t| - 1] == s;
    } else {
      assert Decimal(n)[..0] == [];
      assert Value(Decimal(n)[..0]) == 0;
    }
  }

  lemma {:induction false} LeadingZeros(k: nat, s: string)
    ensures Value(Zeros(k) + s) == Value(s)
    decreases k + |s|
  {
    if s == [] {
      assert Zeros(k) + s == Zeros(k);
      if k > 0 {
        assert Zeros(k)[..k - 1] == Zeros(k - 1);
        LeadingZeros(k - 1, "");
        assert Zeros(k - 1) + "" == Zeros(k - 1);
      }
    } else {
      LeadingZeros(k, s[..|s| - 1]);
      var t := Zeros(k) + s;
      assert t[..|t| - 1] == Zeros(k) + s[..|s| - 1];
    }
  }

  lemma PaddedReads(n: nat, width: nat)
    ensures AllDigits(PadStart(Decimal(n), width)) && Value(PadStart(Decimal(n), width)) == n
  {
    DecimalReads(n);
    if |Decimal(n)| < width { LeadingZeros(width - |Decimal(n)|, Decimal(n)); }
  }

  /** Everything before the first '-'. */
  function BeforeDash(s: string): string {
    if s == [] || s[0] == '-' then [] else [s[0]] + BeforeDash(s[1..])
  }

  lemma {:induction false} BeforeDashOfDigits(a: string, b: string)
    requires AllDigits(a)
    ensures BeforeDash(a + "-" + b) == a
  {
    var s := a + "-" + b;
    if a != [] {
      assert s[1..] == a[1..] + "-" + b;
      BeforeDashOfDigits(a[1..], b);
      assert s[0] == a[0] && a == [a[0]] + a[1..];
    }
  }

  function Read(s: string): (nat, nat)
    requires |s| >= 4
  {
    var rest := s[4..];
    var y := BeforeDash(rest);
    (Value(y), Value(if |y| + 1 <= |rest| then rest[|y| + 1..] else []))
  }

  /** The printed number determines year and sequence. */
  lemma ReadFormat(year: nat, sequence: nat)
    ensures |Format(year, sequence)| >= 4
    ensures Read(Format(year, sequence)) == (year, sequence)
  {
    var y, q := Decimal(year), PadStart(Decimal(sequence), 6);
    var s := Format(year, sequence);
    assert s[4..] == y + "-" + q;
    DecimalReads(year);
    PaddedReads(sequence, 6);
    BeforeDashOfDigits(y, q);
    assert (y + "-" + q)[|y| + 1..] == q;
  }

  lemma {:induction false} DecimalWidth(n: nat, bound: nat, width: nat)
    requires n < bound && width > 0 && bound == Power(width)
    ensures |Decimal(n)| <= width
    decreases width
  {
    if width > 1 && n >= 10 { DecimalWidth(n / 10, Power(width - 1), width - 1); }
  }

  function Power(k: nat): nat {
    if k == 0 then 1 else 10 * Power(k - 1)
  }

  /** The text: the prefix, the year, a dash, and a sequence of at least six digits, of exactly six below
      a million. */
  lemma FormatLooks(year: nat, sequence: nat) returns (y: string, q: string)
    ensures Format(year, sequence) == "OBK-" + y + "-" + q
    ensures AllDigits(y) && Value(y) == year
    ensures AllDigits(q) && Value(q) == sequence && |q| >= 6 && (sequence < 1000000 ==> |q| == 6)
  {
    y, q := Decimal(year), PadStart(Decimal(sequence), 6);
    DecimalReads(year);
    PaddedReads(sequence, 6);
    if sequence < 1000000 { DecimalWidth(sequence, Power(6), 6); }
  }

  /** Two invoices print the same number only if they hold the same year and sequence, so the unique
      index on the printed text is an index on the pair. */
  lemma FormatInjective(y1: nat, q1: nat, y2: nat, q2: nat)
    ensures Format(y1, q1) == Format(y2, q2) <==> y1 == y2 && q1 == q2
  {
    ReadFormat(y1, q1);
    ReadFormat(y2, q2);
  }
}
