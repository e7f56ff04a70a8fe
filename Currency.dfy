/**
 * The currency preference of `app/context/CurrencyContext.jsx`: the code
 * to symbol table and the provider's state, which starts at "INR", adopts
 * the stored preference once fetched, and changes locally on every update
 * whatever the server answers.
 */
module Currency {
  import opened Wrappers

  /** `getCurrencySymbol(currency)`; an absent code is `None`. */
  function CurrencySymbol(currency: Option<string>): (r: string)
    ensures currency == Some("INR") ==> r == "₹"
    ensures currency == Some("EUR") ==> r == "€"
    ensures currency == Some("GBP") ==> r == "£"
    ensures currency !in {Some("INR"), Some("EUR"), Some("GBP")} ==> r == "$"
  {
    match currency
    case Some("INR") => "₹"
    case Some("USD") => "$"
    case Some("EUR") => "€"
    case Some("GBP") => "£"
    case _ => "$"
  }

  /** Only the three non-dollar codes have their own symbol. */
  lemma OwnSymbolIff(currency: Option<string>)
    ensures CurrencySymbol(currency) != "$" <==> currency in {Some("INR"), Some("EUR"), Some("GBP")}
  {
  }

  /** The provider's `currency` state. */
  class CurrencyProvider {
    var currency: string

    constructor ()
      ensures currency == "INR"
    {
      currency := "INR";
    }

    /**
     * The effect of the mount-time fetch: `data.currency` when truthy; a
     * failed fetch, or a reply without it, leaves the state alone.
     */
    method OnFetched(fetched: Option<string>)
      modifies this
      ensures fetched.Some? && fetched.value != "" ==> currency == fetched.value
      ensures fetched.None? || fetched.value == "" ==> currency == old(currency)
    {
      if fetched.Some? && fetched.value != "" {
        currency := fetched.value;
      }
    }

    /**
     * `updateCurrency(newCurrency)`: the state is set before the POST, and a
     * failed POST is only logged, so the new value stays whatever the
     * server answers; the POST itself is not modelled.
     */
    method UpdateCurrency(newCurrency: string)
      modifies this
      ensures currency == newCurrency
    {
      currency := newCurrency;
    }

    /** The `symbol` the provider exposes: always a table symbol. */
    function Symbol(): (r: string)
      reads this
      ensures r in {"₹", "$", "€", "£"}
      ensures currency == "INR" ==> r == "₹"
      ensures currency == "USD" ==> r == "$"
    {
      CurrencySymbol(Some(currency))
    }
  }
}
