/** Satoshis, bitcoins and rounding (btpay/coinmath.py). Decimals are exact rationals. */
module Money {

  // ---- Rounding -------------------------------------------------------------

  /** The nearest integer, the even one of two. */
  function RoundHalfEven(x: real): (n: int)
    ensures x - 0.5 <= n as real <= x + 0.5
  {
    var f := x.Floor;
    var d := x - f as real;
    if d < 0.5 then f else if d > 0.5 then f + 1 else if f % 2 == 0 then f else f + 1
  }

  /** `int` of a decimal. */
  function Truncate(x: real): (n: int)
    ensures 0.0 <= x ==> n as real <= x < n as real + 1.0
    ensures x <= 0.0 ==> n as real - 1.0 < x <= n as real
  {
    if x >= 0.0 then x.Floor else -((-x).Floor)
  }

  const COIN: real := 100_000_000.0

  /** `quantize(Decimal('0.01'))`. */
  function Cents(x: real): (c: real)
    ensures x - 0.005 <= c <= x + 0.005
    ensures 0.0 <= x ==> 0.0 <= c
  {
    RoundHalfEven(x * 100.0) as real / 100.0
  }

  function Satoshi2Coins(n: int): real {
    n as real / COIN
  }

  function Coins2Satoshi(c: real): int {
    Truncate(c * COIN)
  }

  function RoundSatoshi(a: real): real {
    RoundHalfEven(a * COIN) as real / COIN
  }

  lemma RoundedInteger(n: int)
    ensures RoundHalfEven(n as real) == n && Truncate(n as real) == n
  {
  }

  lemma CoinOf(n: int)
    ensures n as real / COIN * COIN == n as real
  {
  }

  /** Satoshi amounts survive the conversion to coins and back. */
  lemma SatoshiRoundTrip(n: int)
    ensures Coins2Satoshi(Satoshi2Coins(n)) == n
  {
    CoinOf(n);
    RoundedInteger(n);
  }

  /** Coin amounts survive the conversion to satoshis and back exactly if they are whole
      satoshis; after `round_satoshi` they are. */
  lemma CoinsRoundTrip(c: real)
    ensures Satoshi2Coins(Coins2Satoshi(c)) == c <==> RoundSatoshi(c) == c
    ensures Satoshi2Coins(Coins2Satoshi(RoundSatoshi(c))) == RoundSatoshi(c)
  {
    var s := RoundHalfEven(c * COIN);
    CoinOf(s);
    RoundedInteger(s);
    var t := Truncate(c * COIN);
    CoinOf(t);
    if t as real / COIN == c {
      RoundedInteger(t);
    }
  }

  /** Rounding gives the nearest integer, and of two the even one. */
  lemma RoundedExactly(x: real, n: int)
    ensures n == RoundHalfEven(x) <==>
      x - 0.5 <= n as real <= x + 0.5 && (n as real == x - 0.5 || n as real == x + 0.5 ==> n % 2 == 0)
  {
  }

  /** An amount in cents is the nearest number of hundredths, and of two the even one. */
  lemma CentsExactly(x: real, n: int)
    ensures Cents(x) == n as real / 100.0 <==>
      x - 0.005 <= n as real / 100.0 <= x + 0.005
      && (n as real / 100.0 == x - 0.005 || n as real / 100.0 == x + 0.005 ==> n % 2 == 0)
  {
    RoundedExactly(x * 100.0, n);
    hide RoundHalfEven;
  }

  /** A coin is a hundred million satoshis, and coins are rounded to the nearest satoshi. */
  lemma SatoshisExactly(n: int, a: real)
    ensures 100_000_000.0 * Satoshi2Coins(n) == n as real
    ensures RoundSatoshi(a) == Satoshi2Coins(n) <==>
      a - 0.000000005 <= Satoshi2Coins(n) <= a + 0.000000005
      && (Satoshi2Coins(n) == a - 0.000000005 || Satoshi2Coins(n) == a + 0.000000005 ==> n % 2 == 0)
  {
    RoundedExactly(a * COIN, n);
    hide RoundHalfEven;
  }

  /** Whole cents stay as they are. */
  lemma CentsOfCents(x: real)
    ensures Cents(Cents(x)) == Cents(x)
  {
    var n := RoundHalfEven(x * 100.0);
    assert n as real / 100.0 * 100.0 == n as real;
    RoundedInteger(n);
  }

  /** The difference of whole cents is whole. */
  lemma WholeDifference(x: real, y: real)
    requires Cents(x) == x && Cents(y) == y
    ensures Cents(x - y) == x - y
  {
    var m, n := RoundHalfEven(x * 100.0), RoundHalfEven(y * 100.0);
    assert (x - y) * 100.0 == (m - n) as real;
    RoundedInteger(m - n);
  }

  // ---- Quotes ---------------------------------------------------------------

  /** The rate of a quote: the market rate, marked up by a percentage if there is one. */
  function QuotedRate(rate: real, markupPercent: real): real {
    if markupPercent != 0.0 then rate * (1.0 + markupPercent / 100.0) else rate
  }

  /** The amount `_lock_btc_rate` asks for. */
  function QuotedAmount(total: real, rate: real): real
    requires rate != 0.0
  {
    RoundSatoshi(total / rate)
  }

  /** The fiat value of coins at a rate. */
  function Worth(coins: real, rate: real): real {
    coins * rate
  }

  /** What a payment of so many satoshis credits at a locked rate. */
  function CreditedFor(amountSat: int, rate: real): real {
    if rate != 0.0 then Cents(Worth(Satoshi2Coins(amountSat), rate)) else 0.0
  }

  /** The most by which paying a quote exactly may miss the total. */
  function QuoteError(rate: real): real {
    rate * 0.000000005 + 0.005
  }

  lemma Scaled(a: real, lo: real, hi: real, rate: real)
    requires rate > 0.0 && lo <= a <= hi
    ensures lo * rate <= a * rate <= hi * rate
  {
  }

  lemma RoundSatoshiError(a: real)
    ensures a - 0.000000005 <= RoundSatoshi(a) <= a + 0.000000005
  {
  }

  /** A markup of so many percent raises a rate by so many hundredths of it. */
  lemma MarkedUp(rate: real, markupPercent: real)
    ensures 100.0 * (QuotedRate(rate, markupPercent) - rate) == rate * markupPercent
  {
  }

  /** A quote asks for coins worth the total at the rate, to half a satoshi, and a payment
      credits what its coins are worth at the rate, to half a cent. */
  lemma QuotePrice(total: real, rate: real, amountSat: int)
    requires rate > 0.0
    ensures total - rate * 0.000000005 <= QuotedAmount(total, rate) * rate <= total + rate * 0.000000005
    ensures var worth := amountSat as real * rate / 100_000_000.0;
      worth - 0.005 <= CreditedFor(amountSat, rate) <= worth + 0.005
  {
    RoundSatoshiError(total / rate);
    NearProduct(QuotedAmount(total, rate), total / rate, total, rate);
    CreditedNear(Worth(Satoshi2Coins(amountSat), rate));
    CoinsWorth(amountSat, rate);
    hide RoundSatoshi, Cents;
  }

  lemma CoinsWorth(amountSat: int, rate: real)
    ensures Worth(Satoshi2Coins(amountSat), rate) == amountSat as real * rate / 100_000_000.0
  {
  }

  /** Paying the quoted amount exactly credits the total up to the rounding of the amount to
      satoshis and of the credit to cents. */
  lemma QuoteSound(total: real, rate: real)
    requires rate > 0.0
    ensures total - QuoteError(rate)
         <= CreditedFor(Coins2Satoshi(QuotedAmount(total, rate)), rate)
         <= total + QuoteError(rate)
  {
    hide *;
    QuotedCredit(total, rate);
    QuotedNear(total, rate);
    CreditedNear(Worth(QuotedAmount(total, rate), rate));
  }

  /** A quoted amount is a whole number of satoshis. */
  lemma QuotedWhole(total: real, rate: real)
    requires rate > 0.0
    ensures Satoshi2Coins(Coins2Satoshi(QuotedAmount(total, rate))) == QuotedAmount(total, rate)
  {
    CoinsRoundTrip(total / rate);
    hide RoundSatoshi, Coins2Satoshi, Satoshi2Coins;
  }

  lemma CreditedOf(n: int, coins: real, rate: real)
    requires rate > 0.0 && Satoshi2Coins(n) == coins
    ensures CreditedFor(n, rate) == Cents(Worth(coins, rate))
  {
    hide Satoshi2Coins, Cents, Worth;
  }

  lemma QuotedCredit(total: real, rate: real)
    requires rate > 0.0
    ensures CreditedFor(Coins2Satoshi(QuotedAmount(total, rate)), rate) == Cents(Worth(QuotedAmount(total, rate), rate))
  {
    hide *;
    QuotedWhole(total, rate);
    CreditedOf(Coins2Satoshi(QuotedAmount(total, rate)), QuotedAmount(total, rate), rate);
  }

  lemma QuotedNear(total: real, rate: real)
    requires rate > 0.0
    ensures total - QuoteError(rate) + 0.005
         <= Worth(QuotedAmount(total, rate), rate)
         <= total + QuoteError(rate) - 0.005
  {
    var a := total / rate;
    RoundSatoshiError(a);
    hide RoundSatoshi;
    NearProduct(QuotedAmount(total, rate), a, total, rate);
  }

  lemma NearProduct(q: real, a: real, total: real, rate: real)
    requires rate > 0.0 && a == total / rate && a - 0.000000005 <= q <= a + 0.000000005
    ensures total - rate * 0.000000005 <= q * rate <= total + rate * 0.000000005
  {
    Scaled(q, a - 0.000000005, a + 0.000000005, rate);
    Spread(a, total, rate);
  }

  lemma Spread(a: real, total: real, rate: real)
    requires rate > 0.0 && a == total / rate
    ensures (a - 0.000000005) * rate == total - rate * 0.000000005
    ensures (a + 0.000000005) * rate == total + rate * 0.000000005
  {
    assert a * rate == total;
  }

  lemma CreditedNear(x: real)
    ensures x - 0.005 <= Cents(x) <= x + 0.005
  {
  }

  /** An amount rounds to at least one unit exactly if it is more than a half. */
  lemma RoundsToSome(x: real)
    ensures RoundHalfEven(x) >= 1 <==> x > 0.5
  {
  }

  lemma SomeCents(x: real)
    ensures Cents(x) > 0.0 <==> x > 0.005
  {
    RoundsToSome(x * 100.0);
    hide RoundHalfEven;
  }

  /** A quote asks for at least a satoshi exactly if the total is worth more than half of one. */
  lemma QuotesSome(total: real, rate: real)
    requires rate > 0.0
    ensures total > rate * 0.000000005 ==> QuotedAmount(total, rate) >= 0.00000001
    ensures total <= rate * 0.000000005 ==> QuotedAmount(total, rate) <= 0.0
  {
    var a := total / rate;
    Spread(a, total, rate);
    Compared(a - 0.000000005, rate);
    RoundsToSome(a * COIN);
    hide RoundHalfEven;
  }

  lemma Compared(d: real, rate: real)
    requires rate > 0.0
    ensures d > 0.0 <==> d * rate > 0.0
  {
  }

  lemma WorthOfSome(coins: real, rate: real)
    requires rate > 0.0
    ensures coins >= 0.00000001 ==> Worth(coins, rate) >= 0.00000001 * rate
    ensures coins <= 0.0 ==> Worth(coins, rate) <= 0.0
  {
  }

  /** Paying a quote exactly credits something exactly if the quoted coins are worth more
      than half a cent; for a total of at least a cent, exactly if the total is worth more
      than half a satoshi. */
  lemma QuoteCredits(total: real, rate: real)
    requires rate > 0.0
    ensures CreditedFor(Coins2Satoshi(QuotedAmount(total, rate)), rate) > 0.0
      <==> Worth(QuotedAmount(total, rate), rate) > 0.005
    ensures total >= 0.01 ==>
      (Worth(QuotedAmount(total, rate), rate) > 0.005 <==> total > rate * 0.000000005)
  {
    hide QuotedAmount, Worth, CreditedFor, Cents, Coins2Satoshi;
    var quoted := QuotedAmount(total, rate);
    QuotedCredit(total, rate);
    SomeCents(Worth(quoted, rate));
    QuotedNear(total, rate);
    QuotesSome(total, rate);
    WorthOfSome(quoted, rate);
  }

  lemma CreditNonNegative(amountSat: int, rate: real)
    requires amountSat >= 0 && rate >= 0.0
    ensures CreditedFor(amountSat, rate) >= 0.0
  {
    var coins := Satoshi2Coins(amountSat);
    assert coins >= 0.0;
    assert coins * rate >= 0.0;
  }
}
