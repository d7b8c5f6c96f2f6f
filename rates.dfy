/**
  The rate snapshot: a base currency code and a table from currency code to
  its rate relative to that base, replaced wholesale on every load.
 */
module Rates {
  import opened Wrappers

  type Table = map<string, real>

  /** What the rate endpoint (or the bundled fallback file) delivers. */
  datatype RateData = RateData(base: string, rates: Table, ts: Option<int>)

  /** `!!table[code]`: present, and not the falsy number 0. */
  predicate Truthy(table: Table, code: string)
  {
    code in table && table[code] != 0.0
  }

  /** The table after the load has forced the USD self-rate: `if (!rates['USD']) rates['USD'] = 1`. */
  function Normalized(table: Table): (r: Table)
    ensures Truthy(r, "USD")
    ensures r.Keys == table.Keys + {"USD"}
    ensures r["USD"] == 1.0 <==> !Truthy(table, "USD") || table["USD"] == 1.0
    ensures forall code :: code in table && code != "USD" ==> r[code] == table[code]
    ensures Truthy(table, "USD") ==> r == table
  {
    if Truthy(table, "USD") then table else table["USD" := 1.0]
  }

  /** Normalising twice is normalising once. */
  lemma NormalizedIdempotent(table: Table)
    ensures Normalized(Normalized(table)) == Normalized(table)
  {
  }

  /** `data.ts || Date.now()`: a missing or zero timestamp is replaced by the clock reading `now`. */
  function LoadTime(data: RateData, now: int): (t: int)
    ensures data.ts.Some? && data.ts.value != 0 ==> t == data.ts.value
    ensures data.ts.None? || data.ts.value == 0 ==> t == now
  {
    match data.ts
    case Some(ts) => if ts != 0 then ts else now
    case None => now
  }

  /**
    Only USD is forced, whatever the base: a snapshot whose base is not USD
    and whose table lacks the base still lacks it after normalisation.
   */
  lemma BaseIsNotForced(data: RateData)
    requires data.base != "USD" && data.base !in data.rates
    ensures data.base !in Normalized(data.rates)
  {
  }
}
