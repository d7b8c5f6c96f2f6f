/**
  The default "from" currency, guessed from the browser locale, the currency
  the locale's number formatting reports, and the timezone offset.
 */
module Locale {
  import opened Text
  import opened Rates

  /**
    What the detection reads from the environment. ProbeFailed: the number
    formatter threw (an invalid locale tag), so the guess stays EUR.
    `offsetMinutes` is `getTimezoneOffset()`, positive west of UTC.
   */
  datatype Probe = ProbeFailed | Probe(locale: string, currency: string, offsetMinutes: int)

  /**
    `Math.abs(offsetMinutes / 60 - h) < 0.1` for h = 5, 4 and 3, evaluated in
    IEEE doubles on whole minutes. The rounding of `m / 60` lets in 294, 306
    and 246, which the same test on exact reals rejects.
   */
  predicate NearFive(m: int) { 294 <= m <= 306 }
  predicate NearFour(m: int) { 235 <= m <= 246 }
  predicate NearThree(m: int) { 175 <= m <= 185 }

  /** The tolerance test on exact reals. */
  ghost predicate WithinTenth(m: int, h: int)
  {
    var d := m as real / 60.0 - h as real;
    -0.1 < d < 0.1
  }

  /** The double windows contain the exact-real windows and exceed them only at the named minutes. */
  lemma OffsetWindows(m: int)
    ensures WithinTenth(m, 5) ==> NearFive(m)
    ensures NearFive(m) && !WithinTenth(m, 5) <==> m == 294 || m == 306
    ensures WithinTenth(m, 4) ==> NearFour(m)
    ensures NearFour(m) && !WithinTenth(m, 4) <==> m == 246
    ensures NearThree(m) <==> WithinTenth(m, 3)
  {
  }

  /** The guess made inside the `try` block of `setInitialCurrencies`. */
  function Detect(p: Probe): (code: string)
    ensures p.Probe? && Contains(p.locale, "PE") ==> code == "PEN"
  {
    match p
    case ProbeFailed => "EUR"
    case Probe(locale, currency, m) =>
      if Contains(locale, "PE") then "PEN"
      else if currency != "" && currency != "USD" then currency
      else if StartsWith(locale, "es") then
        if NearFive(m) then (if Contains(locale, "CO") then "COP" else "PEN")
        else if NearFour(m) then (if Contains(locale, "CL") then "CLP" else "BOB")
        else if NearThree(m) then (if Contains(locale, "UY") then "UYU" else "ARS")
        else if Contains(locale, "MX") then "MXN"
        else if Contains(locale, "ES") then "EUR"
        else "EUR"
      else if currency != "" then currency
      else "EUR"
  }

  /** The initial "from" currency: the guess, unless it is not a truthy rate key, then EUR. */
  function InitialFrom(p: Probe, table: Table): (code: string)
    ensures code == "EUR" || Truthy(table, code)
    ensures Truthy(table, Detect(p)) ==> code == Detect(p)
  {
    var guess := Detect(p);
    if Truthy(table, guess) then guess else "EUR"
  }

  /** A locale mentioning PE picks PEN whenever PEN has a rate, before any later rule. */
  lemma PeruFirst(p: Probe, table: Table)
    requires p.Probe? && Contains(p.locale, "PE") && Truthy(table, "PEN")
    ensures InitialFrom(p, table) == "PEN"
  {
  }

  /** The guess is one of the implied currency, a fixed code, or EUR. */
  lemma DetectRange(p: Probe)
    ensures Detect(p) in {"PEN", "COP", "CLP", "BOB", "UYU", "ARS", "MXN", "EUR"} ||
            (p.Probe? && Detect(p) == p.currency && p.currency != "")
  {
  }

  /**
    The formatter is always asked for USD, so in practice the implied currency
    is "USD": then the second rule never fires and a non-Spanish locale
    without PE lands on USD.
   */
  lemma ImpliedUsd(locale: string, m: int)
    requires !Contains(locale, "PE") && !StartsWith(locale, "es")
    ensures Detect(Probe(locale, "USD", m)) == "USD"
  {
  }

  /** es-PE at UTC-5 picks PEN. */
  lemma ExamplePeru()
    ensures InitialFrom(Probe("es-PE", "USD", 300), map["USD" := 1.0, "PEN" := 3.7]) == "PEN"
  {
    ContainsAt("es-PE", "PE", 3);
  }

  /** es-CO at UTC-5 picks COP. */
  lemma ExampleColombia()
    ensures InitialFrom(Probe("es-CO", "USD", 300), map["USD" := 1.0, "COP" := 4000.0]) == "COP"
  {
    NoP("es-CO");
    ContainsAt("es-CO", "CO", 3);
    assert StartsWith("es-CO", "es");
  }

  /** es-CL at UTC-4 guesses CLP, and the final guard turns it into EUR when CLP has no rate. */
  lemma ExampleChileWithoutRate()
    ensures Detect(Probe("es-CL", "USD", 240)) == "CLP"
    ensures InitialFrom(Probe("es-CL", "USD", 240), map["USD" := 1.0]) == "EUR"
  {
    NoP("es-CL");
    ContainsAt("es-CL", "CL", 3);
    assert StartsWith("es-CL", "es");
  }

  /** en-US reports USD; both the second rule and the Spanish table are skipped, and USD stays. */
  lemma ExampleUnitedStates()
    ensures InitialFrom(Probe("en-US", "USD", 300), map["USD" := 1.0]) == "USD"
  {
    NoP("en-US");
    assert "en-US"[..2][1] == 'n';
  }

  /** A locale without the letter P cannot contain "PE". */
  lemma NoP(locale: string)
    requires 'P' !in locale
    ensures !Contains(locale, "PE")
  {
    if Contains(locale, "PE") {
      ContainsFirstChar(locale, "PE");
    }
  }
}
