/**
 * The two currency filters the plugin registers with WooCommerce
 * (`wc_idpay_currencies` and `wc_idpay_currency_symbol`). Translation through `__()`
 * is taken as the identity.
 */
module Currencies {

  const HezarRial := "IRHR"
  const HezarToman := "IRHT"

  /** Adds the two currencies the gateway defines to a currency list. */
  function AddCurrencies(currencies: map<string, string>): (r: map<string, string>)
    ensures r.Keys == currencies.Keys + {HezarRial, HezarToman}
    ensures r[HezarRial] == "Iranian hezar rial" && r[HezarToman] == "Iranian hezar toman"
    ensures forall c :: c in currencies && c != HezarRial && c != HezarToman ==> r[c] == currencies[c]
  {
    currencies[HezarRial := "Iranian hezar rial"][HezarToman := "Iranian hezar toman"]
  }

  /** Registering the currencies twice gives the same list as registering them once. */
  lemma AddCurrenciesIdempotent(currencies: map<string, string>)
    ensures AddCurrencies(AddCurrencies(currencies)) == AddCurrencies(currencies)
  {
  }

  /** The symbol of the two gateway currencies is their code; any other keeps its symbol. */
  function CurrencySymbol(symbol: string, currency: string): (r: string)
    ensures currency == HezarRial || currency == HezarToman ==> r == currency
    ensures currency != HezarRial && currency != HezarToman ==> r == symbol
  {
    if currency == HezarRial then HezarRial
    else if currency == HezarToman then HezarToman
    else symbol
  }
}
