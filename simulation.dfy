/**
  The synthetic 30-day trend used when no real history can be fetched: one
  value per day from 30 days ago to today, the current rate times a random
  variance of at most 1% and a slow wave of at most 1%.
 */
module Simulation {
  import opened Rates

  /** `state.rates[code] || 1`: a missing or zero rate counts as 1. */
  function RateOrOne(table: Table, code: string): (r: real)
    ensures r != 0.0
    ensures Truthy(table, code) ==> r == table[code]
    ensures !Truthy(table, code) ==> r == 1.0
  {
    if Truthy(table, code) then table[code] else 1.0
  }

  /** The rate the walk is centred on; the fallback to 1 keeps the divisor non-zero. */
  function CurrentRate(table: Table, from: string, to: string): (r: real)
    ensures Truthy(table, from) && Truthy(table, to) ==> r * table[from] == table[to]
    ensures !Truthy(table, from) && !Truthy(table, to) ==> r == 1.0
  {
    RateOrOne(table, to) / RateOrOne(table, from)
  }

  /** `1 + (Math.random() - 0.5) * 0.02` for one draw of `Math.random()`. */
  function Variance(draw: real): real
  {
    1.0 + (draw - 0.5) * 0.02
  }

  /** `1 + Math.sin(i / 5) * 0.01`, given the sine value. */
  function Trend(sine: real): real
  {
    1.0 + sine * 0.01
  }

  /** One simulated day: how many days before today, and the value for `to`. */
  datatype SimDay = SimDay(daysAgo: nat, value: real)

  /**
    `generateSimulatedHistory`: the loop `for (i = 30; i >= 0; i--)`. The
    random draws and the sines of `i / 5` are inputs, indexed by `i`.
   */
  method GenerateSimulatedHistory(table: Table, from: string, to: string, draws: seq<real>, sines: seq<real>)
    returns (days: seq<SimDay>)
    requires |draws| == 31 && |sines| == 31
    ensures |days| == 31
    ensures forall k :: 0 <= k < 31 ==>
              days[k].daysAgo == 30 - k &&
              days[k].value == CurrentRate(table, from, to) * Variance(draws[30 - k]) * Trend(sines[30 - k])
  {
    var currentRate := CurrentRate(table, from, to);
    days := [];
    var i := 30;
    while i >= 0
      invariant -1 <= i <= 30
      invariant |days| == 30 - i
      invariant forall k :: 0 <= k < |days| ==>
                  days[k].daysAgo == 30 - k &&
                  days[k].value == currentRate * Variance(draws[30 - k]) * Trend(sines[30 - k])
    {
      days := days + [SimDay(i, currentRate * Variance(draws[i]) * Trend(sines[i]))];
      i := i - 1;
    }
  }

  lemma ProductBounds(a: real, b: real, c: real)
    requires a > 0.0 && 0.99 <= b <= 1.01 && 0.99 <= c <= 1.01
    ensures 0.9801 * a <= a * b * c <= 1.0201 * a
  {
    assert a * b >= a * 0.99;
    assert a * b <= a * 1.01;
    assert a * b * c >= a * 0.99 * c;
    assert a * 0.99 * c >= a * 0.99 * 0.99;
    assert a * b * c <= a * 1.01 * c;
    assert a * 1.01 * c <= a * 1.01 * 1.01;
  }

  /**
    With `Math.random()` in [0, 1) and sines in [-1, 1], every simulated value
    of a positive rate stays within 2.01% of it.
   */
  lemma SimulatedValueBounds(rate: real, draw: real, sine: real)
    requires rate > 0.0 && 0.0 <= draw < 1.0 && -1.0 <= sine <= 1.0
    ensures 0.9801 * rate <= rate * Variance(draw) * Trend(sine) <= 1.0201 * rate
  {
    ProductBounds(rate, Variance(draw), Trend(sine));
  }
}
