/** Amounts of payments (`vatOn`, `feeOn`, `checkAmount`, `transactionFor`, `paidInFull`, internal/control/payments.go;
the bounds of a charge, internal/control/charges.go; `Amount`, internal/payment/postfinance.go).

Amounts are in millionths of a franc. The code computes VAT in floating point; `fl` is what that makes of a real result.
*/
module Money {
  import opened Text

  const MIN_TOP_UP := 1_000_000
  const MAX_TOP_UP := 10_000_000_000
  const MAX_CHARGE := 100_000_000_000
  const FEE_FIXED := 180_000
  const FEE_BP := 155
  const FEE_MIN_PART := 200_000

  predicate TopUpAccepted(micros: int) { MIN_TOP_UP <= micros <= MAX_TOP_UP && micros % 10_000 == 0 }

  predicate ChargeAccepted(micros: int) { MIN_TOP_UP <= micros <= MAX_CHARGE && micros % 10_000 == 0 }

  function Abs(x: real): real { if x < 0.0 then -x else x }

  /** `y` is `x` rounded to double precision: exactly, for a half of an integer up to 2^52; up to 2^53 within a relative
  error of a 53 bit significand; and a tiny number stays tiny and keeps its sign. */
  predicate IsRounded(x: real, y: real) {
    && (0.000001 <= Abs(x) <= 9007199254740992.0 ==> Abs(y - x) * 9007199254740992.0 <= Abs(x))
    && (Abs(x) < 0.000001 ==> Abs(y - x) <= 0.000001 && (x >= 0.0 ==> y >= 0.0))
    && ((2.0 * x).Floor as real == 2.0 * x && Abs(x) <= 4503599627370496.0 ==> y == x)
  }

  ghost predicate RoundsAt(fl: real -> real, x: real) { IsRounded(x, fl(x)) }

  ghost predicate IsDouble(fl: real -> real) { forall x: real :: RoundsAt(fl, x) }

  /** Rounding to the nearest integer, halves away from zero. */
  function Round(x: real): int { if x < 0.0 then -(0.5 - x).Floor else (x + 0.5).Floor }

  function Times(fl: real -> real, a: real, b: real): real { fl(a * b) }

  function Over10000(fl: real -> real, a: real): real { fl(a / 10_000.0) }

  function VatOn(fl: real -> real, micros: int, bp: int): int {
    Round(Over10000(fl, Over10000(fl, Times(fl, fl(micros as real), fl(bp as real))))) * 10_000
  }

  function FeeOn(micros: int): int {
    var part := if micros * FEE_BP / 10_000 > FEE_MIN_PART then micros * FEE_BP / 10_000 else FEE_MIN_PART;
    FEE_FIXED + (part + 5_000) / 10_000 * 10_000
  }

  datatype Payment = Payment(amount: int, vat: int, fee: int)

  function Total(p: Payment): int { p.amount + p.vat + p.fee }

  /** What a transaction asks for, and what PostFinance says was authorized. */
  datatype LineItem = LineItem(amount: string, fee: bool)

  function Amount(micros: int): string {
    var n := if micros < 0 then -micros else micros;
    var centimes := n % 1_000_000 / 10_000;
    (if micros < 0 then "-" else "") + Itoa(n / 1_000_000) + "." + (if centimes < 10 then "0" else "") + Itoa(centimes)
  }

  function LineItems(p: Payment): seq<LineItem> {
    [LineItem(Amount(p.amount + p.vat), false)] + if p.fee > 0 then [LineItem(Amount(p.fee), true)] else []
  }

  function PaidInFull(fl: real -> real, p: Payment, currency: string, authorized: real): bool {
    currency == "CHF" && Round(Times(fl, authorized, 100.0)) == Total(p) / 10_000
  }

  // Doubles.

  lemma IntegersAreExact(fl: real -> real, n: int)
    requires IsDouble(fl) && -4503599627370496 <= n <= 4503599627370496
    ensures fl(n as real) == n as real
  {
    var x := n as real;
    assert 2.0 * x == (2 * n) as real;
    assert (2.0 * x).Floor == 2 * n;
    assert RoundsAt(fl, x);
  }

  /** Rounding lands on `k` when the number is nearer to it than to any half. */
  lemma RoundIs(x: real, k: int)
    requires k >= 0 && k as real - 0.5 <= x < k as real + 0.5 && x >= 0.0
    ensures Round(x) == k
  {}

  lemma CloseTo(fl: real -> real, x: real)
    requires IsDouble(fl) && Abs(x) <= 2_000_000_000_000.0
    ensures Abs(fl(x) - x) <= 0.0003
    ensures Abs(x) <= 20_000_000_000.0 ==> Abs(fl(x) - x) <= 0.000003
    ensures x >= 0.0 ==> fl(x) >= 0.0
  {
    assert RoundsAt(fl, x);
  }

  /** Dividing centimes by 10'000 and rounding is exact, ties included. */
  lemma QuotientIsExact(fl: real -> real, q: int)
    requires IsDouble(fl) && 0 <= q <= 100_000_000_000
    ensures Round(Over10000(fl, q as real)) == (q + 5_000) / 10_000
  {
    var x := q as real / 10_000.0;
    var y := fl(x);
    var k := (q + 5_000) / 10_000;
    var d := q - 10_000 * k;
    assert -5_000 <= d < 5_000;
    assert x == k as real + d as real / 10_000.0;
    if d == -5_000 {
      assert 2.0 * x == (2 * k - 1) as real;
      assert (2.0 * x).Floor == 2 * k - 1;
      assert RoundsAt(fl, x);
      assert y == x;
    } else {
      CloseTo(fl, x);
      assert k as real - 0.4999 <= x <= k as real + 0.4999;
    }
    RoundIs(y, k);
  }

  // VAT and fee.

  lemma RealProduct(a: int, b: int)
    ensures a as real * b as real == (a * b) as real
  {}

  lemma Tenthousandth(n: int)
    ensures (10_000 * n) as real / 10_000.0 == n as real
  {}

  /** Up to the last quotient, nothing is rounded: its dividend is the share in hundredths of centimes. */
  lemma VatIsAQuotient(fl: real -> real, centimes: int, bp: int)
    requires IsDouble(fl) && 0 <= centimes <= 10_000_000 && 0 <= bp <= 10_000
    ensures 0 <= centimes * bp <= 10_000 * centimes
    ensures VatOn(fl, centimes * 10_000, bp) == Round(Over10000(fl, (centimes * bp) as real)) * 10_000
  {
    var micros, q := centimes * 10_000, centimes * bp;
    ProductBound(centimes, bp);
    IntegersAreExact(fl, micros);
    IntegersAreExact(fl, bp);
    RealProduct(micros, bp);
    assert micros * bp == 10_000 * q;
    IntegersAreExact(fl, 10_000 * q);
    Tenthousandth(q);
    IntegersAreExact(fl, q);
    VatSteps(fl, micros, bp, 10_000 * q, q);
  }

  lemma TimesIs(fl: real -> real, a: real, b: real, c: real)
    requires a * b == c
    ensures Times(fl, a, b) == fl(c)
  {
    assert fl(a * b) == fl(c);
  }

  lemma Over10000Is(fl: real -> real, a: real, c: real)
    requires a / 10_000.0 == c
    ensures Over10000(fl, a) == fl(c)
  {
    assert fl(a / 10_000.0) == fl(c);
  }

  lemma VatSteps(fl: real -> real, micros: int, bp: int, product: int, q: int)
    requires fl(micros as real) == micros as real && fl(bp as real) == bp as real
    requires micros as real * bp as real == product as real == fl(product as real)
    requires product as real / 10_000.0 == q as real == fl(q as real)
    ensures VatOn(fl, micros, bp) == Round(Over10000(fl, q as real)) * 10_000
  {
    TimesIs(fl, micros as real, bp as real, product as real);
    Over10000Is(fl, product as real, q as real);
  }

  lemma ProductBound(c: int, bp: int)
    requires 0 <= c <= 10_000_000 && 0 <= bp <= 10_000
    ensures 0 <= c * bp <= 10_000 * c
  {}

  /** VAT is the exact share to the nearest centime, half a centime up, although it is computed in floating point. */
  lemma VatIsExact(fl: real -> real, micros: int, bp: int)
    requires IsDouble(fl) && ChargeAccepted(micros) && 0 <= bp <= 10_000
    ensures VatOn(fl, micros, bp) % 10_000 == 0 && 0 <= VatOn(fl, micros, bp) <= micros
    ensures -5_000 * 10_000 < VatOn(fl, micros, bp) * 10_000 - micros * bp <= 5_000 * 10_000
  {
    var c := micros / 10_000;
    assert micros == c * 10_000;
    VatIsAQuotient(fl, c, bp);
    QuotientIsExact(fl, c * bp);
    VatInCentimes(VatOn(fl, micros, bp), c, bp);
  }

  lemma VatInCentimes(vat: int, c: int, bp: int)
    requires 0 <= c * bp <= 10_000 * c && vat == (c * bp + 5_000) / 10_000 * 10_000
    ensures vat % 10_000 == 0 && 0 <= vat <= c * 10_000
    ensures -5_000 * 10_000 < vat * 10_000 - c * 10_000 * bp <= 5_000 * 10_000
  {
    var q := c * bp;
    assert c * 10_000 * bp == 10_000 * q;
  }

  /** The fee is whole centimes within half a centime of its formula, at least 0.38, and grows with the amount. */
  lemma FeeIsToTheCentime(micros: int, more: int)
    requires ChargeAccepted(micros) && ChargeAccepted(more) && micros <= more
    ensures FeeOn(micros) % 10_000 == 0 && 380_000 <= FeeOn(micros) <= FeeOn(more)
    ensures var formula := FEE_FIXED * 10_000 +
                           if FEE_BP * micros > FEE_MIN_PART * 10_000 then FEE_BP * micros else FEE_MIN_PART * 10_000;
            -5_000 * 10_000 < FeeOn(micros) * 10_000 - formula <= 5_000 * 10_000
  {
    FeeOfCentimes(micros / 10_000);
    FeeOfCentimes(more / 10_000);
  }

  lemma FeeOfCentimes(c: int)
    requires 0 <= c
    ensures var part := if 155 * c > FEE_MIN_PART then 155 * c else FEE_MIN_PART;
            FeeOn(10_000 * c) == FEE_FIXED + (part + 5_000) / 10_000 * 10_000
  {
    assert 10_000 * c * FEE_BP == 10_000 * (155 * c);
  }

  /** A payment that is started. */
  function Asked(fl: real -> real, micros: int, bp: int): Payment {
    Payment(micros, VatOn(fl, micros, bp), FeeOn(micros))
  }

  ghost predicate WholeCentimes(p: Payment) {
    && ChargeAccepted(p.amount)
    && p.vat % 10_000 == 0 && 0 <= p.vat <= p.amount
    && p.fee % 10_000 == 0 && 380_000 <= p.fee <= 1_600_000_000
  }

  lemma AskedIsWhole(fl: real -> real, micros: int, bp: int)
    requires IsDouble(fl) && (TopUpAccepted(micros) || ChargeAccepted(micros)) && 0 <= bp <= 10_000
    ensures WholeCentimes(Asked(fl, micros, bp))
  {
    VatIsExact(fl, micros, bp);
    FeeIsToTheCentime(micros, MAX_CHARGE);
  }

  /** Nothing on the way to a total leaves 64 bits, and no product leaves the integers doubles are exact on. */
  lemma NothingOverflows(p: Payment, bp: int)
    requires WholeCentimes(p) && 0 <= bp <= 10_000
    ensures Total(p) % 10_000 == 0 && p.amount + 380_000 <= Total(p) <= 2 * p.amount + 1_600_000_000 <= MAX64
    ensures p.amount * FEE_BP <= MAX64 && p.amount * bp <= 4503599627370496
  {
    ProductBound(p.amount / 10_000, bp);
    assert p.amount == p.amount / 10_000 * 10_000;
    assert p.amount * bp == 10_000 * (p.amount / 10_000 * bp);
  }

  // What was authorized.

  /** An amount in centimes that was read as a double, times a hundred, still rounds to those centimes. */
  lemma CentimesAreClose(fl: real -> real, centimes: int)
    requires IsDouble(fl) && 0 <= centimes <= 1_000_000_000_000
    ensures Round(Times(fl, fl(centimes as real / 100.0), 100.0)) == centimes
  {
    var x := centimes as real / 100.0;
    var a := fl(x);
    CloseTo(fl, x);
    TimesIs(fl, a, 100.0, a * 100.0);
    CloseTo(fl, a * 100.0);
    CentimesRound(centimes, a, fl(a * 100.0));
  }

  lemma CentimesRound(centimes: int, a: real, y: real)
    requires 0 <= centimes && Abs(a - centimes as real / 100.0) <= 0.000003 && Abs(y - a * 100.0) <= 0.0003 && y >= 0.0
    ensures Round(y) == centimes
  {
    RoundIs(y, centimes);
  }

  /** Of the amounts in whole centimes exactly the one that was asked for pays in full. */
  lemma PaidInFullIff(fl: real -> real, p: Payment, currency: string, centimes: int)
    requires IsDouble(fl) && WholeCentimes(p) && 0 <= centimes <= 1_000_000_000_000
    ensures PaidInFull(fl, p, currency, fl(centimes as real / 100.0)) <==>
              currency == "CHF" && centimes * 10_000 == Total(p)
  {
    CentimesAreClose(fl, centimes);
    NothingOverflows(p, 0);
  }

  /** Any other amount pays in full when it is within half a centime of what was asked, and does not beyond. */
  lemma PaidInFullRounds(fl: real -> real, p: Payment, authorized: real)
    requires IsDouble(fl) && WholeCentimes(p) && 0.0 <= authorized <= 10_000_000_000.0
    ensures var off := Abs(authorized * 1_000_000.0 - Total(p) as real);
            && (off < 4_990.0 ==> PaidInFull(fl, p, "CHF", authorized))
            && (off > 5_010.0 ==> !PaidInFull(fl, p, "CHF", authorized))
  {
    NothingOverflows(p, 0);
    CloseTo(fl, authorized * 100.0);
    InCentimes(authorized, Total(p) / 10_000, fl(authorized * 100.0));
  }

  lemma InCentimes(authorized: real, k: int, x: real)
    requires Abs(x - authorized * 100.0) <= 0.0003 && x >= 0.0 && k >= 0
    ensures var off := Abs(authorized * 1_000_000.0 - (k * 10_000) as real);
            && (off < 4_990.0 ==> Round(x) == k)
            && (off > 5_010.0 ==> Round(x) != k)
  {
    assert authorized * 1_000_000.0 - (k * 10_000) as real == (authorized * 100.0 - k as real) * 10_000.0;
    if Abs(authorized * 100.0 - k as real) < 0.499 { RoundIs(x, k); }
  }

  // What is asked for.

  /** The centimes an amount reads as: its digits without the point. */
  function Centimes(amount: string): int {
    if |amount| < 3 then 0 else Value(amount[..|amount| - 3] + amount[|amount| - 2..])
  }

  lemma AmountReads(micros: int)
    requires micros >= 0
    ensures Centimes(Amount(micros)) == micros / 10_000
  {
    var francs, centimes := micros / 1_000_000, micros % 1_000_000 / 10_000;
    var digits := (if centimes < 10 then "0" else "") + Itoa(centimes);
    TwoDigits(centimes);
    WithoutPoint(Itoa(francs), digits);
    assert Amount(micros) == Itoa(francs) + "." + digits;
    ValueOfItoa(francs);
    TwoMoreDigits(Itoa(francs), digits);
  }

  lemma WithoutPoint(s: string, d: string)
    requires |d| == 2
    ensures Centimes(s + "." + d) == Value(s + d)
  {
    var a := s + "." + d;
    assert a[..|a| - 3] == s && a[|a| - 2..] == d;
  }

  lemma TwoDigits(n: nat)
    requires n < 100
    ensures var d := (if n < 10 then "0" else "") + Itoa(n);
            |d| == 2 && d[0] as int - '0' as int == n / 10 && d[1] as int - '0' as int == n % 10
  {
    if n >= 10 {
      assert Itoa(n) == Itoa(n / 10) + ['0' + (n % 10) as char];
    }
  }

  lemma TwoMoreDigits(s: string, d: string)
    requires |d| == 2
    ensures Value(s + d) == 100 * Value(s) + 10 * (d[0] as int - '0' as int) + (d[1] as int - '0' as int)
  {
    var t := s + [d[0]];
    assert s + d == t + [d[1]];
    assert (t + [d[1]])[..|t|] == t && t[..|s|] == s;
  }

  /** An amount is digits, a point and two digits, and below nothing it is the amount above with a sign. */
  lemma AmountIs(micros: int)
    ensures micros < 0 ==> Amount(micros) == "-" + Amount(-micros)
    ensures micros >= 0 ==>
              var a := Amount(micros);
              |a| >= 4 && a[|a| - 3] == '.' && forall i :: 0 <= i < |a| && i != |a| - 3 ==> IsDigit(a[i])
  {
    if micros >= 0 {
      var francs, centimes := micros / 1_000_000, micros % 1_000_000 / 10_000;
      var digits := (if centimes < 10 then "0" else "") + Itoa(centimes);
      ValueOfItoa(francs);
      TwoDigits(centimes);
      assert Amount(micros) == Itoa(francs) + "." + digits;
      DigitsAndPoint(Itoa(francs), digits);
    } else {
      assert Amount(micros) == "-" + Amount(-micros);
    }
  }

  lemma DigitsAndPoint(s: string, d: string)
    requires s != "" && AllDigits(s) && |d| == 2 && IsDigit(d[0]) && IsDigit(d[1])
    ensures var a := s + "." + d;
            |a| >= 4 && a[|a| - 3] == '.' && forall i :: 0 <= i < |a| && i != |a| - 3 ==> IsDigit(a[i])
  {}

  function Sum(items: seq<LineItem>): int {
    if items == [] then 0 else Centimes(items[0].amount) + Sum(items[1..])
  }

  /** The line items, as they are written, add up to exactly what pays in full. */
  lemma LineItemsAddUp(p: Payment)
    requires WholeCentimes(p)
    ensures Sum(LineItems(p)) * 10_000 == Total(p)
    ensures |LineItems(p)| == 2 && !LineItems(p)[0].fee && LineItems(p)[1].fee && Centimes(LineItems(p)[1].amount) * 10_000 == p.fee
  {
    AmountReads(p.fee);
    SumOfItems(p);
    WholeQuotients(p.amount + p.vat, p.fee, Sum(LineItems(p)));
  }

  lemma SumOfItems(p: Payment)
    requires p.fee > 0 && p.amount + p.vat >= 0
    ensures Sum(LineItems(p)) == (p.amount + p.vat) / 10_000 + p.fee / 10_000
  {
    AmountReads(p.amount + p.vat);
    AmountReads(p.fee);
    SumOfTwo(LineItem(Amount(p.amount + p.vat), false), LineItem(Amount(p.fee), true));
  }

  lemma SumOfTwo(a: LineItem, b: LineItem)
    ensures Sum([a] + [b]) == Centimes(a.amount) + Centimes(b.amount)
  {
    assert ([a] + [b])[1..] == [b] && [b][1..] == [];
    assert Sum([b]) == Centimes(b.amount);
  }

  lemma WholeQuotients(a: int, b: int, sum: int)
    requires a % 10_000 == 0 && b % 10_000 == 0 && sum == a / 10_000 + b / 10_000
    ensures sum * 10_000 == a + b
  {}
}
