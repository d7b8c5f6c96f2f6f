/**
  The widget's one mutable `state` object (base, rates, lastUpdated,
  history) and the handlers that change it.
 */
module App {
  import opened Wrappers
  import opened Rates
  import Conversion
  import History
  import Locale
  import Text

  /** How the rate load ended: from the endpoint, from the bundled file ("local data" notice), or not at all. */
  datatype LoadOutcome = LoadedPrimary | LoadedFallback | LoadFailed

  class State {
    var base: string
    var rates: Table
    var lastUpdated: Option<int>
    var history: seq<History.Entry>

    /** The initial state, with the history read back from storage. */
    constructor (stored: seq<History.Entry>)
      ensures base == "USD" && rates == map[] && lastUpdated == None && history == stored
    {
      base := "USD";
      rates := map[];
      lastUpdated := None;
      history := stored;
    }

    /** `updateState`: the snapshot replaces the old one, then the USD self-rate is forced. */
    method UpdateState(data: RateData, now: int)
      modifies this`base, this`rates, this`lastUpdated
      ensures base == data.base
      ensures rates == Normalized(data.rates)
      ensures lastUpdated == Some(LoadTime(data, now))
    {
      base := data.base;
      rates := data.rates;
      lastUpdated := Some(LoadTime(data, now));
      if !Truthy(rates, "USD") {
        rates := rates["USD" := 1.0];
      }
    }

    /** `fetchRates`: the endpoint's data if it came, else the bundled file's, else failure with nothing changed. */
    method FetchRates(primary: Option<RateData>, fallback: Option<RateData>, now: int) returns (outcome: LoadOutcome)
      modifies this`base, this`rates, this`lastUpdated
      ensures primary.Some? ==> outcome == LoadedPrimary && base == primary.value.base &&
                                rates == Normalized(primary.value.rates) &&
                                lastUpdated == Some(LoadTime(primary.value, now))
      ensures primary.None? && fallback.Some? ==> outcome == LoadedFallback && base == fallback.value.base &&
                                                  rates == Normalized(fallback.value.rates) &&
                                                  lastUpdated == Some(LoadTime(fallback.value, now))
      ensures primary.None? && fallback.None? ==> outcome == LoadFailed && unchanged(this)
      ensures outcome != LoadFailed ==> Truthy(rates, "USD")
    {
      if primary.Some? {
        UpdateState(primary.value, now);
        outcome := LoadedPrimary;
      } else if fallback.Some? {
        UpdateState(fallback.value, now);
        outcome := LoadedFallback;
      } else {
        outcome := LoadFailed;
      }
    }

    /**
      `setInitialCurrencies`: the if-chain on the locale, then the guard
      against codes without a rate. Its specification is `Locale.Detect`
      (the chain) and `Locale.InitialFrom` (the guard).
     */
    method SetInitialCurrencies(p: Locale.Probe) returns (from: string, to: string)
      ensures from == Locale.InitialFrom(p, rates)
      ensures from == "EUR" || Truthy(rates, from)
      ensures to == "USD"
    {
      var detectedFrom := "EUR";
      if p.Probe? {
        var locale, currency, offset := p.locale, p.currency, p.offsetMinutes;
        if Text.Contains(locale, "PE") {
          detectedFrom := "PEN";
        } else if currency != "" && currency != "USD" {
          detectedFrom := currency;
        } else if Text.StartsWith(locale, "es") {
          if Locale.NearFive(offset) {
            detectedFrom := if Text.Contains(locale, "CO") then "COP" else "PEN";
          } else if Locale.NearFour(offset) {
            detectedFrom := if Text.Contains(locale, "CL") then "CLP" else "BOB";
          } else if Locale.NearThree(offset) {
            detectedFrom := if Text.Contains(locale, "UY") then "UYU" else "ARS";
          } else if Text.Contains(locale, "MX") {
            detectedFrom := "MXN";
          } else if Text.Contains(locale, "ES") {
            detectedFrom := "EUR";
          } else {
            detectedFrom := "EUR";
          }
        } else {
          detectedFrom := if currency != "" then currency else "EUR";
        }
      }
      assert detectedFrom == Locale.Detect(p);
      if !Truthy(rates, detectedFrom) {
        detectedFrom := "EUR";
      }
      from, to := detectedFrom, "USD";
    }

    /** `addToHistory`: skip a repeat of the newest entry, else `unshift`, and `pop` once past the cap. */
    method AddToHistory(amount: real, from: string, to: string, result: real, rate: real, id: int, date: string)
      modifies this`history
      ensures history == History.Recorded(old(history), History.Entry(id, amount, from, to, result, rate, date))
      ensures |old(history)| <= History.MaxHistory ==> |history| <= History.MaxHistory
    {
      var entry := History.Entry(id, amount, from, to, result, rate, date);
      if |history| > 0 && history[0].amount == amount && history[0].from == from && history[0].to == to {
        return;
      }
      history := [entry] + history;
      if |history| > History.MaxHistory {
        history := history[..|history| - 1];
      }
      History.RecordedLength(old(history), entry);
    }

    /**
      `performConversion` with the rate passed on the rejected branch: the
      screen, and an entry in the history only for an accepted amount.
     */
    method PerformConversion(amount: Conversion.Amount, from: string, to: string, id: int, date: string)
      returns (screen: Conversion.Screen)
      requires Conversion.Convertible(rates, from, to)
      modifies this`history
      ensures screen == Conversion.Perform(rates, amount, from, to).screen
      ensures !Conversion.Accepted(amount) ==> history == old(history)
      ensures Conversion.Accepted(amount) ==>
                var q := Conversion.Convert(rates, amount.value, from, to);
                history == History.Recorded(old(history), History.Entry(id, amount.value, from, to, q.result, q.rate, date))
    {
      var o := Conversion.Perform(rates, amount, from, to);
      screen := o.screen;
      if o.logged.Some? {
        AddToHistory(amount.value, from, to, o.logged.value.result, o.logged.value.rate, id, date);
      }
    }
  }
}
