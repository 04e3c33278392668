/** Money in integer minor units, rounding half away from zero, VAT, invoice totals and proration.
    The intermediate quotients are exact rationals: a quotient n/d is carried as its numerator and a
    positive denominator, and a VAT percentage as a fraction. */
module Money {
  import opened Outcomes

  datatype Currency = SEK | NOK | DKK | EUR

  datatype Money = Money(amountMinor: int, currency: Currency)

  datatype Percent = Percent(num: int, den: int)

  /** A percentage is a fraction with a positive denominator. */
  type Rate = p: Percent | 0 < p.den witness Percent(0, 1)

  function Abs(x: int): int { if x < 0 then -x else x }

  /** `raw >= 0 ? floor(raw + 0.5) : ceil(raw - 0.5)` for raw = n / d. */
  function RoundHalfAway(n: int, d: int): int
    requires 0 < d
  {
    if n >= 0 then (2 * n + d) / (2 * d) else -((-2 * n + d) / (2 * d))
  }

  /** r is a nearest integer to n / d, and the one further from zero when n / d is half way. */
  predicate Nearest(n: int, d: int, r: int)
    requires 0 < d
  {
    2 * Abs(r * d - n) <= d && (2 * Abs(r * d - n) == d ==> Abs(n) < Abs(r * d))
  }

  lemma QuotientBounds(m: int, q: int)
    requires 0 < q
    ensures m / q * q <= m < m / q * q + q
  {
  }

  lemma RoundIsNearest(n: int, d: int)
    requires 0 < d
    ensures Nearest(n, d, RoundHalfAway(n, d))
  {
    var m := 2 * Abs(n) + d;
    var r := m / (2 * d);
    var p := r * d;
    QuotientBounds(m, 2 * d);
    Doubled(r, d);
    assert 0 <= r by { if r < 0 { MultipleGap(r, 0, 2 * d); } }
    assert 0 <= p;
    assert 2 * Abs(p - Abs(n)) <= d && (2 * Abs(p - Abs(n)) == d ==> Abs(n) < p);
    if n < 0 {
      assert RoundHalfAway(n, d) == -r;
      Negated(r, d);
    } else {
      assert RoundHalfAway(n, d) == r;
    }
  }

  lemma Doubled(r: int, d: int)
    ensures r * (2 * d) == 2 * (r * d)
  {
  }

  lemma Negated(r: int, d: int)
    ensures (-r) * d == -(r * d)
  {
  }

  lemma MultipleGap(r: int, s: int, d: int)
    requires 0 < d && r < s
    ensures r * d + d <= s * d
  {
    assert (s - r - 1) * d >= 0;
    assert s * d == r * d + d + (s - r - 1) * d;
  }

  lemma NotBothNearest(n: int, d: int, r: int, s: int)
    requires 0 < d && r < s
    ensures !(Nearest(n, d, r) && Nearest(n, d, s))
  {
    var p, q := r * d, s * d;
    MultipleGap(r, s, d);
    if 0 <= r {
      assert 0 <= p;
    } else {
      MultipleGap(r, 0, d);
      assert p <= -d;
    }
  }

  lemma NearestIsUnique(n: int, d: int, r: int, s: int)
    requires 0 < d && Nearest(n, d, r) && Nearest(n, d, s)
    ensures r == s
  {
    if r < s { NotBothNearest(n, d, r, s); }
    if s < r { NotBothNearest(n, d, s, r); }
  }

  /** The rounding is the only integer-valued function that is nearest with ties away from zero. */
  lemma RoundingExact(n: int, d: int, r: int)
    requires 0 < d
    ensures Nearest(n, d, r) <==> r == RoundHalfAway(n, d)
  {
    RoundIsNearest(n, d);
    if Nearest(n, d, r) { NearestIsUnique(n, d, r, RoundHalfAway(n, d)); }
  }

  /** Credits mirror charges. */
  lemma RoundingIsOdd(n: int, d: int)
    requires 0 < d
    ensures RoundHalfAway(-n, d) == -RoundHalfAway(n, d)
  {
  }

  function ComputeVat(net: Money, percent: Rate): Money {
    Money(RoundHalfAway(net.amountMinor * percent.num, 100 * percent.den), net.currency)
  }

  /** VAT is within half a minor unit of the exact amount net * num / (100 * den), and a credit
      carries exactly the negated VAT. */
  lemma VatAccurate(net: Money, percent: Rate)
    ensures var exact := net.amountMinor * percent.num;
            && 2 * Abs(ComputeVat(net, percent).amountMinor * (100 * percent.den) - exact) <= 100 * percent.den
            && Nearest(exact, 100 * percent.den, ComputeVat(net, percent).amountMinor)
            && ComputeVat(net, percent).currency == net.currency
    ensures ComputeVat(Money(-net.amountMinor, net.currency), percent)
         == Money(-ComputeVat(net, percent).amountMinor, net.currency)
  {
    RoundIsNearest(net.amountMinor * percent.num, 100 * percent.den);
    RoundingIsOdd(net.amountMinor * percent.num, 100 * percent.den);
    assert -net.amountMinor * percent.num == -(net.amountMinor * percent.num);
  }

  // ---- Invoice lines and totals ----

  datatype InvoiceLine = InvoiceLine(
    description: string,
    quantity: int,
    unitAmount: Money,
    vatPercent: Rate,
    vatAmount: Money,
    lineTotal: Money)

  function BuildInvoiceLine(description: string, quantity: int, unitAmount: Money, vatPercent: Rate,
                            reverseCharge: bool := false): InvoiceLine
  {
    var net := Money(unitAmount.amountMinor * quantity, unitAmount.currency);
    var effective: Rate := if reverseCharge then Percent(0, 1) else vatPercent;
    var vat := ComputeVat(net, effective);
    InvoiceLine(description, quantity, unitAmount, effective, vat,
                Money(net.amountMinor + vat.amountMinor, net.currency))
  }

  /** A line some call of `BuildInvoiceLine` returned. */
  ghost predicate Built(l: InvoiceLine) {
    exists rc: bool, p: Rate :: l == BuildInvoiceLine(l.description, l.quantity, l.unitAmount, p, rc)
  }

  datatype Totals = Totals(subtotal: Money, vatTotal: Money, total: Money)

  datatype TotalsError = CurrencyMismatch

  function SumNet(lines: seq<InvoiceLine>): int {
    if lines == [] then 0 else SumNet(lines[..|lines| - 1]) + Last(lines).unitAmount.amountMinor * Last(lines).quantity
  }

  function SumVat(lines: seq<InvoiceLine>): int {
    if lines == [] then 0 else SumVat(lines[..|lines| - 1]) + Last(lines).vatAmount.amountMinor
  }

  function SumLineTotals(lines: seq<InvoiceLine>): int {
    if lines == [] then 0 else SumLineTotals(lines[..|lines| - 1]) + Last(lines).lineTotal.amountMinor
  }

  function Last(lines: seq<InvoiceLine>): InvoiceLine
    requires lines != []
  {
    lines[|lines| - 1]
  }

  predicate InCurrency(l: InvoiceLine, currency: Currency) {
    l.unitAmount.currency == currency && l.vatAmount.currency == currency
  }

  function InvoiceTotals(lines: seq<InvoiceLine>, currency: Currency): Result<Totals, TotalsError> {
    if exists i :: 0 <= i < |lines| && !InCurrency(lines[i], currency) then Err(CurrencyMismatch)
    else Ok(Totals(Money(SumNet(lines), currency), Money(SumVat(lines), currency),
                   Money(SumNet(lines) + SumVat(lines), currency)))
  }

  method ComputeInvoiceTotals(lines: seq<InvoiceLine>, currency: Currency) returns (r: Result<Totals, TotalsError>)
    ensures r.Err? <==> exists i :: 0 <= i < |lines| && !InCurrency(lines[i], currency)
    ensures r == InvoiceTotals(lines, currency)
  {
    var net, vat := 0, 0;
    for i := 0 to |lines|
      invariant forall j :: 0 <= j < i ==> InCurrency(lines[j], currency)
      invariant net == SumNet(lines[..i]) && vat == SumVat(lines[..i])
    {
      var l := lines[i];
      if !InCurrency(l, currency) {
        return Err(CurrencyMismatch);
      }
      assert lines[..i + 1][..i] == lines[..i] && Last(lines[..i + 1]) == l;
      net := net + l.unitAmount.amountMinor * l.quantity;
      vat := vat + l.vatAmount.amountMinor;
    }
    assert lines[..|lines|] == lines;
    return Ok(Totals(Money(net, currency), Money(vat, currency), Money(net + vat, currency)));
  }

  lemma OneLine(l: InvoiceLine, currency: Currency)
    ensures InvoiceTotals([l], currency).Ok? <==> InCurrency(l, currency)
    ensures InCurrency(l, currency) ==>
              InvoiceTotals([l], currency).value
              == Totals(Money(l.unitAmount.amountMinor * l.quantity, currency), Money(l.vatAmount.amountMinor, currency),
                        Money(l.unitAmount.amountMinor * l.quantity + l.vatAmount.amountMinor, currency))
  {
    assert [l][..0] == [] && Last([l]) == l;
    assert SumNet([]) == 0 && SumVat([]) == 0;
    assert [l][0] == l;
  }

  /** The totals of no line are zero, and one line more adds its net amount, its VAT, and both. */
  lemma TotalsAddUp(lines: seq<InvoiceLine>, l: InvoiceLine, currency: Currency)
    ensures InvoiceTotals([], currency) == Ok(Totals(Money(0, currency), Money(0, currency), Money(0, currency)))
    ensures InvoiceTotals(lines + [l], currency).Ok? <==> InvoiceTotals(lines, currency).Ok? && InCurrency(l, currency)
    ensures InvoiceTotals(lines + [l], currency).Ok? ==>
              var t, net, vat := InvoiceTotals(lines, currency).value, l.unitAmount.amountMinor * l.quantity, l.vatAmount.amountMinor;
              InvoiceTotals(lines + [l], currency).value
              == Totals(Money(t.subtotal.amountMinor + net, currency), Money(t.vatTotal.amountMinor + vat, currency),
                        Money(t.total.amountMinor + net + vat, currency))
  {
    var longer := lines + [l];
    assert longer[..|lines|] == lines && Last(longer) == l;
    assert forall i :: 0 <= i < |lines| ==> longer[i] == lines[i];
    assert longer[|lines|] == l;
  }

  /** A line bills its quantity at its unit price; its VAT is the nearest whole amount at its rate, none
      when the charge is reversed; its total is net plus VAT. */
  lemma LineMeans(description: string, quantity: int, unitAmount: Money, rate: Rate, reverseCharge: bool)
    ensures var l := BuildInvoiceLine(description, quantity, unitAmount, rate, reverseCharge);
            var net := unitAmount.amountMinor * quantity;
            && l.description == description && l.quantity == quantity && l.unitAmount == unitAmount
            && InCurrency(l, unitAmount.currency) && l.lineTotal == Money(net + l.vatAmount.amountMinor, unitAmount.currency)
            && (if reverseCharge then l.vatAmount.amountMinor == 0 && l.vatPercent.num == 0
                else l.vatPercent == rate && Nearest(net * rate.num, 100 * rate.den, l.vatAmount.amountMinor))
  {
    RoundIsNearest(unitAmount.amountMinor * quantity * rate.num, 100 * rate.den);
    assert reverseCharge ==> unitAmount.amountMinor * quantity * 0 == 0;
  }

  lemma {:induction false} SumsAgree(lines: seq<InvoiceLine>)
    requires forall l :: l in lines ==> Built(l)
    ensures SumLineTotals(lines) == SumNet(lines) + SumVat(lines)
  {
    if lines != [] {
      assert Built(Last(lines));
      SumsAgree(lines[..|lines| - 1]);
    }
  }

  /** No money is made or lost between the lines and the invoice: the total is the sum of line totals. */
  lemma TotalIsSumOfLines(lines: seq<InvoiceLine>, currency: Currency)
    requires forall l :: l in lines ==> Built(l)
    requires InvoiceTotals(lines, currency).Ok?
    ensures var t := InvoiceTotals(lines, currency).value;
            t.total.amountMinor == SumLineTotals(lines)
            && t.total.amountMinor == t.subtotal.amountMinor + t.vatTotal.amountMinor
  {
    SumsAgree(lines);
  }

  // ---- Proration ----

  function Clamp(x: int, hi: int): int {
    var low := if x < hi then x else hi;
    if 0 < low then low else 0
  }

  function ProrateByDays(amount: Money, totalDays: int, remainingDays: int): Money {
    if totalDays <= 0 then Money(0, amount.currency)
    else Money(RoundHalfAway(amount.amountMinor * Clamp(remainingDays, totalDays), totalDays), amount.currency)
  }

  /** x * k / n lies exactly half way between two integers. */
  predicate Tie(x: int, n: int, k: int)
    requires 0 < n
  {
    (2 * (x * k) - n) % (2 * n) == 0
  }

  function Sign(x: int): int { if x > 0 then 1 else if x < 0 then -1 else 0 }

  lemma MultipleOf(a: int, m: int) returns (q: int)
    requires 0 < m && a % m == 0
    ensures a == q * m
  {
    q := a / m;
  }

  lemma NotTie(a: int, d: int, q: int)
    requires 0 < d && (2 * a - d) % (2 * d) != 0
    ensures 2 * Abs(q * d - a) != d
  {
    if 2 * Abs(q * d - a) == d {
      var p := if q * d >= a then q - 1 else q;
      assert p * (2 * d) == 2 * (p * d) && (q - 1) * d == q * d - d;
      assert 2 * a - d == p * (2 * d);
      assert (p * (2 * d)) % (2 * d) == 0 by { ModOfMultiple(p, 2 * d); }
    }
  }

  lemma ModOfMultiple(p: int, m: int)
    requires 0 < m
    ensures (p * m) % m == 0
  {
    var q, r := (p * m) / m, (p * m) % m;
    assert p * m == q * m + r && 0 <= r < m;
    if p < q { MultipleGap(p, q, m); }
    if q < p { MultipleGap(q, p, m); }
  }

  /** The two portions of a split lose or gain nothing, except at an exact half-unit tie, where both
      round away from zero and their sum exceeds the amount by one unit in that direction. */
  lemma ProrationConserves(amount: Money, n: int, k: int)
    requires 0 < n && 0 <= k <= n
    ensures ProrateByDays(amount, n, k).amountMinor + ProrateByDays(amount, n, n - k).amountMinor
         == amount.amountMinor + (if Tie(amount.amountMinor, n, k) then Sign(amount.amountMinor) else 0)
  {
    var x := amount.amountMinor;
    var a, b := x * k, x * (n - k);
    var r, s := RoundHalfAway(a, n), RoundHalfAway(b, n);
    assert Clamp(k, n) == k && Clamp(n - k, n) == n - k;
    if Tie(x, n, k) {
      SplitAtTie(x, n, k);
    } else {
      Distributes(x, n, k);
      DifferenceTimes(x, r, n);
      RoundIsNearest(a, n);
      NotTie(a, n, r);
      assert Abs((x - r) * n - b) == Abs(r * n - a);
      RoundingExact(b, n, x - r);
    }
  }

  lemma Distributes(x: int, n: int, k: int)
    ensures x * k + x * (n - k) == x * n
  {
  }

  lemma DifferenceTimes(x: int, r: int, n: int)
    ensures (x - r) * n == x * n - r * n
  {
  }

  lemma ZeroIsNoTie(n: int, k: int)
    requires 0 < n
    ensures !Tie(0, n, k)
  {
    assert 2 * (0 * k) - n == -n;
    assert (-n) % (2 * n) == n by {
      var m, q := (-n) % (2 * n), (-n) / (2 * n);
      assert -n == q * (2 * n) + m;
      if q < -1 { MultipleGap(q, -1, 2 * n); }
      if -1 < q { MultipleGap(-1, q, 2 * n); }
    }
  }

  /** Two non-negative parts of x whole units, the first half a unit past q of them, round to one too many. */
  lemma PartsAtTie(x: int, n: int, a: int, b: int, q: int)
    requires 0 < n && 0 <= a && 0 <= b && a + b == x * n && 2 * a == 2 * (q * n) + n
    ensures RoundHalfAway(a, n) + RoundHalfAway(b, n) == x + 1
  {
    RoundTieUp(a, n, q);
    assert (x - q - 1) * n == x * n - q * n - n;
    RoundTieUp(b, n, x - q - 1);
  }

  lemma SignsAgree(x: int, k: int)
    requires 0 <= k
    ensures (x >= 0 ==> x * k >= 0) && (x <= 0 ==> x * k <= 0)
  {
  }

  lemma SplitAtTie(x: int, n: int, k: int)
    requires 0 < n && 0 <= k <= n && Tie(x, n, k)
    ensures RoundHalfAway(x * k, n) + RoundHalfAway(x * (n - k), n) == x + Sign(x)
  {
    hide RoundHalfAway;
    var a, b := x * k, x * (n - k);
    Distributes(x, n, k);
    SignsAgree(x, k);
    SignsAgree(x, n - k);
    var q := MultipleOf(2 * a - n, 2 * n);
    assert q * (2 * n) == 2 * (q * n);
    if x > 0 {
      PartsAtTie(x, n, a, b, q);
    } else if x < 0 {
      assert (-q - 1) * n == -(q * n) - n && (-x) * n == -(x * n);
      PartsAtTie(-x, n, -a, -b, -q - 1);
      RoundingIsOdd(-a, n);
      RoundingIsOdd(-b, n);
    } else {
      ZeroIsNoTie(n, k);
      assert false;
    }
  }

  lemma RoundTieUp(a: int, n: int, q: int)
    requires 0 < n && 0 <= a && 2 * a == 2 * (q * n) + n
    ensures RoundHalfAway(a, n) == q + 1
  {
    if q < 0 { MultipleGap(q, 0, n); }
    assert 0 <= q;
    assert 0 <= q * n;
    assert (q + 1) * n == q * n + n;
    assert Nearest(a, n, q + 1);
    RoundingExact(a, n, q + 1);
  }

  /** The unconditional conservation promised beside `prorateByDays` fails: one unit split in half
      is billed twice. */
  lemma ProrationConservationFails()
    ensures var one := Money(1, SEK);
            ProrateByDays(one, 2, 1).amountMinor + ProrateByDays(one, 2, 1).amountMinor == one.amountMinor + 1
  {
  }

  /** Exactly when conservation holds. */
  lemma ProrationConservesIff(amount: Money, n: int, k: int)
    requires 0 < n && 0 <= k <= n
    ensures ProrateByDays(amount, n, k).amountMinor + ProrateByDays(amount, n, n - k).amountMinor == amount.amountMinor
       <==> !Tie(amount.amountMinor, n, k)
  {
    ProrationConserves(amount, n, k);
    ZeroIsNoTie(n, k);
  }

  /** Each portion is the nearest whole amount to its share of the days. */
  lemma ProrateIsNearest(amount: Money, n: int, k: int)
    requires 0 < n && 0 <= k <= n
    ensures Nearest(amount.amountMinor * k, n, ProrateByDays(amount, n, k).amountMinor)
    ensures ProrateByDays(amount, n, k).currency == amount.currency
  {
    RoundIsNearest(amount.amountMinor * k, n);
  }

  /** Outside 0..n the remaining days are clamped, and an empty term owes nothing. */
  lemma ProrationBounds(amount: Money, n: int, k: int)
    ensures n <= 0 ==> ProrateByDays(amount, n, k).amountMinor == 0
    ensures 0 < n && k <= 0 ==> ProrateByDays(amount, n, k).amountMinor == 0
    ensures 0 < n <= k ==> ProrateByDays(amount, n, k) == amount
  {
    if 0 < n <= k {
      assert Nearest(amount.amountMinor * n, n, amount.amountMinor);
      RoundingExact(amount.amountMinor * n, n, amount.amountMinor);
    }
  }
}
