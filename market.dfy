/** Vocabulary shared by both servers: the symbol registry, the alignment of
    timestamps to candle periods, fixed-point prices with the two-decimal
    rounding used on the wire, and the candle value that is sent to viewers. */
module Market {

  datatype Option<T> = None | Some(value: T)

  /** The tracked symbols, in registry order (`availableStocks`). */
  const AVAILABLE_STOCKS: seq<string> := ["JOBY", "ACHR", "SVIX", "UVIX", "VXX", "WULF"]

  predicate IsAvailable(symbol: string) {
    symbol in AVAILABLE_STOCKS
  }

  /** Length of one candle period in milliseconds. */
  const CANDLE_INTERVAL: nat := 30000

  /** `Math.floor(t / 30000) * 30000`: the start of the period holding `t`. */
  function PeriodStart(t: nat): (p: nat)
    ensures p % CANDLE_INTERVAL == 0
    ensures p <= t < p + CANDLE_INTERVAL
  {
    (t / CANDLE_INTERVAL) * CANDLE_INTERVAL
  }

  /** The two facts above determine the period start. */
  lemma PeriodStartUnique(t: nat, p: nat)
    requires p % CANDLE_INTERVAL == 0 && p <= t < p + CANDLE_INTERVAL
    ensures p == PeriodStart(t)
  {
    var k := p / CANDLE_INTERVAL;
    assert p == k * CANDLE_INTERVAL;
    assert k * CANDLE_INTERVAL <= t < (k + 1) * CANDLE_INTERVAL;
    assert t / CANDLE_INTERVAL == k;
  }

  /** JavaScript truthiness of a timestamp that may be `null`: null and 0 are falsy. */
  predicate Truthy(t: Option<nat>) {
    t.Some? && t.value != 0
  }

  /** Prices are fixed point: one unit is a ten-thousandth of a currency unit. */
  type Price = nat

  const CENT: nat := 100
  const DOLLAR: nat := 10000

  /** `parseFloat(x.toFixed(2))` on a non-negative price: round to whole cents,
      halves upward. */
  function Round2(p: Price): (r: Price)
    ensures r % CENT == 0
    ensures p < r + CENT / 2 && r <= p + CENT / 2
  {
    ((p + CENT / 2) / CENT) * CENT
  }

  lemma Round2Monotone(a: Price, b: Price)
    requires a <= b
    ensures Round2(a) <= Round2(b)
  {
    var qa, qb := (a + CENT / 2) / CENT, (b + CENT / 2) / CENT;
    assert qa <= qb;
    assert Round2(a) == qa * CENT && Round2(b) == qb * CENT;
  }

  /** Rounding preserves order; stated for all prices so function bodies can use it. */
  lemma Round2IsMonotone()
    ensures forall a: Price, b: Price :: a <= b ==> Round2(a) <= Round2(b)
  {
    forall a: Price, b: Price | a <= b
      ensures Round2(a) <= Round2(b)
    {
      Round2Monotone(a, b);
    }
  }

  /** A price already in whole cents is left as it is. */
  lemma Round2OfCents(p: Price)
    requires p % CENT == 0
    ensures Round2(p) == p
  {
    var q := p / CENT;
    assert p == q * CENT;
    assert (p + CENT / 2) / CENT == q;
  }

  /** One candlestick as sent to viewers; `isLive` false stands for the flag being absent. */
  datatype Candle = Candle(
    symbol: string,
    timestamp: nat,
    open: Price,
    high: Price,
    low: Price,
    close: Price,
    volume: nat,
    isLive: bool)

  predicate WellFormed(c: Candle) {
    c.low <= c.open <= c.high && c.low <= c.close <= c.high
  }
}
