# X-Change currency converter: a verified model of its logic

X-Change is a browser currency converter. It loads a rate snapshot (a base
currency and a table of rates relative to it) and guesses a default "from"
currency from the locale and timezone. It converts an amount between two
currencies through the base, and keeps a short newest-first history of
conversions. It also draws a 30-day trend chart, with a simulated series when
no real history can be fetched. This project models those pieces of
`js/app.js` in Dafny and proves what the code promises about them.

Modules, one per component of the script:

- `Rates` (rates.dfy): the snapshot data, JavaScript truthiness of a rate,
  the USD self-rate normalisation, and the load timestamp.
- `Conversion` (conversion.dfy): the arithmetic through the base currency,
  the amount guard, and what the result panel shows. It holds both the code
  as written and the corrected handler (see Findings).
- `History` (history.dfy): the ledger capped at 10 entries, as a function
  with lemmas about the cap, the no-op on a repeat, and entry positions.
- `Locale` (locale.dfy): the decision table for the default currency.
- `Currency` (currency.dfy): the name and symbol tables and their fallback.
- `Chart` (chart.dfy): sorting the day keys, the series for the target
  currency, which indices get a marker, and the padded value range.
- `Simulation` (simulation.dfy): the 31-iteration loop of the simulated trend.
- `App` (app.dfy): the script's single mutable `state` object as
  `class State`. Its methods change state in place, and each is proved
  against the functions above.
- `Text` (text.dfy) and `Wrappers` (wrappers.dfy): `includes`,
  `startsWith`, the default string sort order, and `Option`.

Inputs that the script gets from the browser are parameters:

- the parsed amount (`Conversion.Amount`, with NaN as its own case);
- the locale, the currency the number formatter reports, and the timezone
  offset (`Locale.Probe`);
- the clock readings `Date.now()` and the display date;
- the results of the two rate fetches (`Option<RateData>`);
- the `Math.random()` draws and the sines used by the trend simulation.

Where the widget's design documentation and the code disagree, the model
follows the code:

- The load forces `rates['USD']` to 1, not the rate of `data.base`
  (`Rates.BaseIsNotForced`).
- For `en-US` the final branch gives `currency || 'EUR'`, which is USD,
  whenever USD has a rate (`Locale.ExampleUnitedStates`).
- The tolerance `Math.abs(offset / 60 - h) < 0.1` runs in IEEE doubles. On
  whole minutes it accepts 294..306, 235..246 and 175..185. The exact-real
  reading (|m - 60h| < 6) rejects 294, 306 and 246 (`Locale.OffsetWindows`).
- A corrupt stored history makes `JSON.parse` throw, where the design says
  it yields an empty ledger. Restoring the history is outside this model
  (see Left out).
- In the design, the effective rate is shown even for an invalid amount. The
  code does not pass it (see Findings).

## Model

| member | source | states |
|---|---|---|
| `Rates.Normalized` | js/app.js:72-77 | after the load, USD is a truthy key; its rate is 1 exactly when it was missing, zero or already 1; every other entry and no other key is the incoming data's; a truthy USD leaves the table as delivered |
| `Rates.NormalizedIdempotent` | js/app.js:77 | normalising an already normalised table changes nothing |
| `Rates.LoadTime` | js/app.js:74 | the update time is the data's timestamp unless it is missing or zero, then the clock reading |
| `Rates.BaseIsNotForced` | js/app.js:72-77 | every snapshot whose base is not USD and lacks a rate still lacks it after the load: only USD is forced |
| `App.State.constructor` | js/app.js:13-18 | the initial state is base USD, no rates, no update time, and the stored history |
| `App.State.UpdateState` | js/app.js:71-77 | base, rates and update time are replaced wholesale by the delivered snapshot, normalised; the history is not touched |
| `App.State.FetchRates` | js/app.js:51-69 | the endpoint's data is used when it arrives, else the bundled fallback's (reported as such), with base, normalised rates and update time taken from the data used; when both fail the state is unchanged; after a successful load USD has a truthy rate |
| `App.State.SetInitialCurrencies` | js/app.js:100-141 | the if-chain yields the decision-table choice; "from" is EUR or a truthy rate key; "to" is USD |
| `App.State.AddToHistory` | js/app.js:229-244 | the new history is the ledger function applied to the old one and the new entry; a ledger within the cap stays within it |
| `App.State.PerformConversion` | js/app.js:194-214 | the screen is the corrected handler's; a rejected amount leaves the history unchanged; an accepted one records its Convert quote |
| `Conversion.Convert` | js/app.js:205-210 | the result is amount * rateTo / rateFrom; the effective rate times rateFrom is rateTo; the result is the amount times the effective rate |
| `Conversion.ConvertSame` | js/app.js:205-210 | converting a currency into itself returns the amount at rate 1 |
| `Conversion.ConvertBack` | js/app.js:205-210 | converting the result back after a swap returns the amount; the two effective rates multiply to 1 |
| `Conversion.RateChain` | js/app.js:208-210 | the rate a to c is the rate a to b times the rate b to c |
| `Conversion.ConvertIgnoresBase` | js/app.js:208-210 | scaling every rate by the same non-zero factor (another base) changes no conversion |
| `Conversion.ConvertExample` | js/app.js:205-210 | with USD 1, EUR 0.9, PEN 3.7, converting 10 EUR to PEN gives 370/9 at rate 37/9 |
| `Conversion.PerformAsWritten` | js/app.js:194-226 | as written, a NaN or negative amount throws after writing the zero result, leaves the rate line unwritten, and logs nothing; an accepted amount does not throw and logs its quote |
| `Conversion.NotANumberThrowsAsWritten` | js/app.js:200-203 | a NaN amount makes the handler as written throw |
| `Conversion.Perform` | js/app.js:194-214 | corrected: never throws; the symbol, target code, name of "from" and effective rate are always shown; a rejected amount shows 0 and logs nothing; an accepted amount shows amount * rateTo / rateFrom and logs exactly its quote |
| `Conversion.PerformAgreesOnAccepted` | js/app.js:200-212 | the corrected and as-written handlers agree on every accepted amount and differ on every rejected one |
| `History.Recorded` | js/app.js:229-244 | a repeat of the head's (amount, from, to) leaves the ledger as it was; otherwise the entry is at index 0, followed by the old ledger in order, with the oldest dropped only when the ledger already had 10 or more |
| `History.RecordedLength` | js/app.js:243-244 | the cap of 10 is kept; the ledger grows by at most one; one at or over the cap does not grow |
| `History.RecordedShifts` | js/app.js:243 | after a new entry, each surviving old entry k is found at k + 1 |
| `History.RecordedTwice` | js/app.js:230-231 | recording the same (amount, from, to) twice in a row equals recording it once |
| `History.RecordedAllWithinCap` | js/app.js:229-244 | no sequence of conversions takes a ledger within the cap beyond it |
| `History.RecordedAllHead` | js/app.js:229-244 | after any non-empty sequence of conversions, the head is for the last one made |
| `Locale.OffsetWindows` | js/app.js:116-120 | in doubles, the offset windows contain the exact-real windows and exceed them only at 294, 306 (5 h) and 246 (4 h); at 3 h they coincide |
| `Locale.Detect` | js/app.js:101-132 | a locale containing PE gives PEN before every other rule |
| `Locale.InitialFrom` | js/app.js:134-137 | the result is EUR or a truthy rate key, and it is the guess whenever the guess has a truthy rate |
| `Locale.PeruFirst` | js/app.js:110-111 | a locale containing PE selects PEN whenever PEN has a truthy rate |
| `Locale.DetectRange` | js/app.js:110-131 | the guess is a fixed code of the table, EUR, or the non-empty implied currency |
| `Locale.ImpliedUsd` | js/app.js:104-131 | with the implied currency USD, a locale that is not Spanish and has no PE lands on USD |
| `Locale.ExamplePeru` | js/app.js:110-111 | es-PE at UTC-5 selects PEN |
| `Locale.ExampleColombia` | js/app.js:116-117 | es-CO at UTC-5 selects COP |
| `Locale.ExampleChileWithoutRate` | js/app.js:118-137 | es-CL at UTC-4 guesses CLP, which the guard turns into EUR when CLP has no rate |
| `Locale.ExampleUnitedStates` | js/app.js:129-131 | en-US with implied USD selects USD |
| `Currency.Name` | js/app.js:144-163 | a known code gives its table name, any other code gives itself; a non-empty code never gives an empty name |
| `Currency.Symbol` | js/app.js:166-184 | a known code gives its table symbol, any other code gives itself; a non-empty code never gives an empty symbol |
| `Currency.SymbolCodesAreNamed` | js/app.js:145-182 | every code with a symbol has a name, and only UYU has a name without a symbol |
| `Chart.Sort` | js/app.js:378 | the sorted keys are a permutation of the keys |
| `Chart.SortSorted` | js/app.js:378 | sorting distinct keys gives them in strictly ascending string order |
| `Chart.SortedUnique` | js/app.js:378 | two strictly ascending lists of the same keys are equal |
| `Chart.RenderChart` | js/app.js:378-384 | an empty object gives no plot, and only an empty one does; otherwise the dates are the object's keys in ascending order, each value is that day's rate for the target currency or undefined, and the markers are those of the series length |
| `Chart.RenderChartIgnoresKeyOrder` | js/app.js:378-379 | the plot is the same whatever order the object's keys are enumerated in |
| `Chart.MarkersExactly` | js/app.js:424 | index k gets a marker exactly when k % 5 == 0 or k is the last index, in ascending order |
| `Chart.Min` | js/app.js:386 | the minimum is a value of the series and no value is below it |
| `Chart.Max` | js/app.js:387 | the maximum is a value of the series and no value is above it |
| `Chart.PaddedRangeContains` | js/app.js:386-388 | for positive values every value lies inside the padded range and the range is not empty |
| `Chart.PaddedRangeNegative` | js/app.js:386 | for every series with a negative minimum the padded lower bound lies above that minimum |
| `Simulation.RateOrOne` | js/app.js:359 | a truthy rate is used as is; a missing or zero one counts as 1, so the value is never zero |
| `Simulation.CurrentRate` | js/app.js:359 | with both rates truthy the centre is the effective rate; with neither it is 1 |
| `Simulation.GenerateSimulatedHistory` | js/app.js:357-371 | 31 days, from 30 days ago to today in that order; each value is the current rate times the variance and the trend of its day |
| `Simulation.SimulatedValueBounds` | js/app.js:366-368 | with a draw in [0, 1) and a sine in [-1, 1], a simulated value of a positive rate stays within [0.9801, 1.0201] times the rate |

## Left out

- DOM lookups and updates, event wiring, the loader, the toast and `setTimeout`: user interface plumbing. The result panel is modelled only as the values it is given (`Conversion.Screen`).
- `renderHistory` and `populateCurrencies`: they only build markup from the history and from the sorted rate keys.
- The network: `fetch`, `response.ok` and `response.json()` for the rate endpoint, the fallback file and the historical-rate API. The two rate sources become optional inputs of `App.State.FetchRates`.
- The `init`/`fetchHistoricalData` control flow, including the switch to the simulated series on any fetch failure. Both are asynchronous and driven by the network.
- `localStorage`, `JSON.parse` and `JSON.stringify`: foreign storage. The stored history is a constructor argument, the write after each entry is not modelled, and neither is the throw on a corrupt stored value.
- Number and date formatting (`toLocaleString`, `toFixed`, `Intl.NumberFormat`, `toISOString`): locale and library behaviour. The screen holds numbers, not strings. Simulated days are numbered by days before today, not by ISO date strings.
- `Math.random` and `Math.sin`: the draws and the sines are parameters of `Simulation.GenerateSimulatedHistory`.
- The SVG coordinate interpolation, path strings and axis labels: floating-point geometry. A one-point series divides 0 by 0 there.
- Floating-point numbers are modelled as reals. NaN appears only as the `Amount.NotANumber` case, and infinities not at all.
- `Conversion.Convert`, `Conversion.Perform` and `App.State.PerformConversion` require `Conversion.Convertible`: both codes have a rate and the "from" rate is not zero. The script does meet the excluded cases, and the model does not say what it then shows or logs:
  - `populateCurrencies` (js/app.js:85) lists every rate key, including one whose rate is 0. Choosing it as "from" divides by zero (Infinity, or NaN for an amount of 0), and that value is shown and logged.
  - js/app.js:135-139 selects EUR even when EUR has no rate. The selection is then empty, `from` is `''`, `state.rates['']` is undefined, and a NaN result and rate are shown (`NaN.toFixed(5)` does not throw) and logged.
- JSON values that are not numbers in the rate table, and missing `rates` or `base` fields in the delivered data, are not modelled.
- Properties inherited from `Object.prototype` (a lookup of "constructor" in the name table) are not modelled.
- `Chart.Sort` compares characters by code point. JavaScript compares UTF-16 code units, and the two orders differ only beyond the Basic Multilingual Plane.
- The aliasing of `state.rates` with the delivered object (line 73 shares it, and line 77 then writes into it): the model copies the table.
- `fromSelect.value` set to a code that has no option: the browser then shows an empty selection.

## Findings

| source | as written | input that shows it | evidently intended | confidence | as-written member | corrected member |
|---|---|---|---|---|---|---|
| js/app.js:200-203 | the rejected-amount branch calls `updateResultUI(0, from, to, 0)` with no fifth argument, so `rate.toFixed(5)` at line 226 throws a TypeError after the zero result is written, and the rate line keeps its old text | an empty amount field, or "abc" (both parse to NaN), or "-5" | the panel shows a zero result together with the effective rate rateTo / rateFrom, and the handler returns normally | high; not executed | `Conversion.PerformAsWritten` | `Conversion.Perform` |
