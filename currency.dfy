/**
  Display names and symbols of the currencies the widget knows by name.
  Both lookups fall back to the code itself (`table[code] || code`).
 */
module Currency {

  const Names: map<string, string> := map[
    "USD" := "Dólar Estadounidense",
    "EUR" := "Euro",
    "GBP" := "Libra Esterlina",
    "JPY" := "Yen Japonés",
    "MXN" := "Peso Mexicano",
    "ARS" := "Peso Argentino",
    "COP" := "Peso Colombiano",
    "CLP" := "Peso Chileno",
    "BRL" := "Real Brasileño",
    "CAD" := "Dólar Canadiense",
    "AUD" := "Dólar Australiano",
    "CHF" := "Franco Suizo",
    "CNY" := "Yuan Chino",
    "PEN" := "Sol Peruano",
    "UYU" := "Peso Uruguayo"
  ]

  const Symbols: map<string, string> := map[
    "USD" := "$",
    "EUR" := "€",
    "GBP" := "£",
    "JPY" := "¥",
    "PEN" := "S/",
    "ARS" := "$",
    "COP" := "$",
    "CLP" := "$",
    "MXN" := "$",
    "BRL" := "R$",
    "CAD" := "$",
    "AUD" := "$",
    "CHF" := "CHF",
    "CNY" := "¥"
  ]

  /** `table[code] || code`: an empty string in the table is falsy and falls back too. */
  function LookupOr(table: map<string, string>, code: string): string
  {
    if code in table && table[code] != "" then table[code] else code
  }

  function Name(code: string): (r: string)
    ensures code in Names ==> r == Names[code]
    ensures code !in Names ==> r == code
    ensures code != "" ==> r != ""
  {
    LookupOr(Names, code)
  }

  function Symbol(code: string): (r: string)
    ensures code in Symbols ==> r == Symbols[code]
    ensures code !in Symbols ==> r == code
    ensures code != "" ==> r != ""
  {
    LookupOr(Symbols, code)
  }

  /** Every code with a symbol also has a name; only the Uruguayan peso has a name and no symbol. */
  lemma SymbolCodesAreNamed()
    ensures Symbols.Keys <= Names.Keys
    ensures Names.Keys - Symbols.Keys == {"UYU"}
    ensures Symbol("UYU") == "UYU" && Name("UYU") == "Peso Uruguayo"
  {
    assert Symbols.Keys == {"USD", "EUR", "GBP", "JPY", "PEN", "ARS", "COP", "CLP", "MXN", "BRL", "CAD", "AUD", "CHF", "CNY"};
    assert Names.Keys == Symbols.Keys + {"UYU"};
  }
}
