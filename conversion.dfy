/**
  The conversion arithmetic and what the result panel shows.

  Rates are stored relative to one base currency, so an amount is converted
  to the base first (divide by the rate of `from`) and then to the target
  (multiply by the rate of `to`).
 */
module Conversion {
  import opened Wrappers
  import opened Rates
  import Currency

  /** The parsed amount field: `parseFloat` gives a number or NaN. */
  datatype Amount = NotANumber | Number(value: real)

  /** The guard `isNaN(amount) || amount < 0` lets this amount through. */
  predicate Accepted(amount: Amount)
  {
    amount.Number? && amount.value >= 0.0
  }

  /** Both codes are rate keys and the rate of `from` can be divided by. */
  predicate Convertible(table: Table, from: string, to: string)
  {
    from in table && to in table && table[from] != 0.0
  }

  datatype Quote = Quote(result: real, rate: real)

  /** `amount / rateFrom * rateTo` and `rateTo / rateFrom`. */
  function Convert(table: Table, amount: real, from: string, to: string): (q: Quote)
    requires Convertible(table, from, to)
    ensures q.result == amount * table[to] / table[from]
    ensures q.rate * table[from] == table[to]
    ensures q.result == amount * q.rate
  {
    var amountInBase := amount / table[from];
    Quote(amountInBase * table[to], table[to] / table[from])
  }

  /** Converting a currency into itself is the identity, at rate 1. */
  lemma ConvertSame(table: Table, amount: real, code: string)
    requires Convertible(table, code, code)
    ensures Convert(table, amount, code, code) == Quote(amount, 1.0)
  {
  }

  /** Swapping the two selectors and converting the result back gives the amount back. */
  lemma ConvertBack(table: Table, amount: real, from: string, to: string)
    requires Convertible(table, from, to) && table[to] != 0.0
    ensures Convert(table, Convert(table, amount, from, to).result, to, from).result == amount
    ensures Convert(table, amount, from, to).rate * Convert(table, amount, to, from).rate == 1.0
  {
  }

  /** Going through an intermediate currency multiplies the two effective rates. */
  lemma RateChain(table: Table, a: string, b: string, c: string)
    requires Convertible(table, a, b) && Convertible(table, b, c)
    ensures Convert(table, 1.0, a, b).rate * Convert(table, 1.0, b, c).rate == Convert(table, 1.0, a, c).rate
  {
    var ab, bc := table[b] / table[a], table[c] / table[b];
    assert ab * bc == (table[b] * table[c]) / (table[a] * table[b]);
  }

  /** Every rate multiplied by the same factor: the table of another base currency. */
  function Rebased(table: Table, factor: real): (r: Table)
    ensures r.Keys == table.Keys
    ensures forall code :: code in r ==> r[code] == table[code] * factor
  {
    map code | code in table :: table[code] * factor
  }

  /** Which currency the table is based on does not change any conversion. */
  lemma ConvertIgnoresBase(table: Table, factor: real, amount: real, from: string, to: string)
    requires Convertible(table, from, to) && factor != 0.0
    ensures Convertible(Rebased(table, factor), from, to)
    ensures Convert(Rebased(table, factor), amount, from, to) == Convert(table, amount, from, to)
  {
    var t := Rebased(table, factor);
    assert t[to] / t[from] == (table[to] * factor) / (table[from] * factor);
    assert (table[to] * factor) / (table[from] * factor) == table[to] / table[from];
  }

  lemma ConvertExample()
    ensures var table := map["USD" := 1.0, "EUR" := 0.9, "PEN" := 3.7];
            Convert(table, 10.0, "EUR", "PEN") == Quote(370.0 / 9.0, 37.0 / 9.0)
  {
  }

  /**
    What the result panel holds: the amount-field symbol, the result value,
    the target code, the amount and name of `from`, and the rate line. A rate
    of None means the rate line was not written (it keeps its old text).
   */
  datatype Screen = Screen(symbol: string, value: real, code: string, amount: real, fromName: string, rate: Option<real>)

  /** A press on the amount field or a selector: the screen, whether the handler threw, and what goes to the history. */
  datatype Outcome = Outcome(screen: Screen, threw: bool, logged: Option<Quote>)

  /**
    `updateResultUI`: the fields are written in order; when `rate` is
    undefined, `rate.toFixed(5)` throws a TypeError after the first three.
   */
  function ResultUI(from: string, to: string, amount: real, result: real, rate: Option<real>): (Screen, bool)
  {
    (Screen(Currency.Symbol(from), result, to, amount, Currency.Name(from), rate), rate.None?)
  }

  /** `performConversion` as written: the rejected branch passes no rate. */
  function PerformAsWritten(table: Table, amount: Amount, from: string, to: string): (o: Outcome)
    requires Accepted(amount) ==> Convertible(table, from, to)
    ensures !Accepted(amount) ==> o.threw && o.screen.rate.None? && o.logged.None?
    ensures Accepted(amount) ==> !o.threw && o.logged == Some(Convert(table, amount.value, from, to))
  {
    if !Accepted(amount) then
      var (s, threw) := ResultUI(from, to, 0.0, 0.0, None);
      Outcome(s, threw, None)
    else
      var q := Convert(table, amount.value, from, to);
      var (s, threw) := ResultUI(from, to, amount.value, q.result, Some(q.rate));
      Outcome(s, threw, Some(q))
  }

  /** A NaN entry in the amount field makes the as-written handler throw. */
  lemma NotANumberThrowsAsWritten(table: Table, from: string, to: string)
    ensures PerformAsWritten(table, NotANumber, from, to).threw
  {
  }

  /**
    `performConversion` with the rate passed in the rejected branch too: the
    effective rate is shown whatever the amount, a rejected amount shows a
    zero result, and only an accepted amount is logged.
   */
  function Perform(table: Table, amount: Amount, from: string, to: string): (o: Outcome)
    requires Convertible(table, from, to)
    ensures !o.threw
    ensures o.screen.symbol == Currency.Symbol(from) && o.screen.code == to
    ensures o.screen.fromName == Currency.Name(from)
    ensures o.screen.rate == Some(table[to] / table[from])
    ensures !Accepted(amount) ==> o.screen.value == 0.0 && o.screen.amount == 0.0 && o.logged.None?
    ensures Accepted(amount) ==>
              o.screen.amount == amount.value &&
              o.screen.value == amount.value * table[to] / table[from] &&
              o.logged == Some(Convert(table, amount.value, from, to))
  {
    var q := Convert(table, if Accepted(amount) then amount.value else 0.0, from, to);
    if !Accepted(amount) then
      var (s, threw) := ResultUI(from, to, 0.0, 0.0, Some(q.rate));
      Outcome(s, threw, None)
    else
      var (s, threw) := ResultUI(from, to, amount.value, q.result, Some(q.rate));
      Outcome(s, threw, Some(q))
  }

  /** The two agree on every accepted amount; they differ only on the rejected branch. */
  lemma PerformAgreesOnAccepted(table: Table, amount: Amount, from: string, to: string)
    requires Convertible(table, from, to)
    ensures Accepted(amount) ==> PerformAsWritten(table, amount, from, to) == Perform(table, amount, from, to)
    ensures !Accepted(amount) ==> PerformAsWritten(table, amount, from, to) != Perform(table, amount, from, to)
  {
  }
}
