/** Request bodies for payments and their amount and currency validators. */
module PaymentSchemas {
  import opened Wrappers
  import opened PaymentModel

  const NonPositiveAmountMessage: string := "Kwota musi być większa od 0"
  const BelowMinimumMessage: string := "Minimalna kwota płatności to 0.50"
  const UnsupportedCurrencyMessage: string := "Obsługiwane waluty: pln, eur, usd, gbp"

  /** The smallest amount the card gateway accepts. */
  const MinimumCardAmount: real := 0.50

  const AllowedCurrencies: seq<string> := ["pln", "eur", "usd", "gbp"]

  /** An offline payment request; `paymentType` defaults to RENTAL. */
  datatype PaymentCreate = PaymentCreate(
    rentalId: Option<int>, amount: real, paymentType: PaymentType, description: Option<string>)

  /** A card payment request; `currency` defaults to "pln". */
  datatype StripePaymentCreate = StripePaymentCreate(rentalId: Option<int>, amount: real, currency: string)

  /** The offline amount validator: only a positive amount passes, unchanged. */
  function ValidatePaymentAmount(amount: real): (r: Result<real, string>)
    ensures r.Ok? <==> amount > 0.0
    ensures r.Ok? ==> r.value == amount
  {
    if amount <= 0.0 then Err(NonPositiveAmountMessage) else Ok(amount)
  }

  /** The card amount validator: a non-positive amount and an amount under 0.50 are rejected with
      different messages, so every accepted amount is at least 0.50. */
  function ValidateStripeAmount(amount: real): (r: Result<real, string>)
    ensures r.Ok? <==> amount >= MinimumCardAmount
    ensures r.Ok? ==> r.value == amount
    ensures amount <= 0.0 ==> r == Err(NonPositiveAmountMessage)
    ensures 0.0 < amount < MinimumCardAmount ==> r == Err(BelowMinimumMessage)
  {
    if amount <= 0.0 then Err(NonPositiveAmountMessage)
    else if amount < MinimumCardAmount then Err(BelowMinimumMessage)
    else Ok(amount)
  }

  /** Lower-cases one character. The allowed currency codes are plain ASCII, and no character
      outside ASCII lower-cases to one of their letters, so ASCII folding decides acceptance exactly
      as full Unicode lower-casing would. */
  function LowerChar(c: char): (d: char)
    ensures 'A' <= c <= 'Z' ==> 'a' <= d <= 'z' && d as int - 'a' as int == c as int - 'A' as int
    ensures !('A' <= c <= 'Z') ==> d == c
  {
    if 'A' <= c <= 'Z' then (c as int + 32) as char else c
  }

  function ToLower(s: string): (t: string)
    ensures |t| == |s|
    ensures forall i :: 0 <= i < |s| ==> t[i] == LowerChar(s[i])
  {
    seq(|s|, i requires 0 <= i < |s| => LowerChar(s[i]))
  }

  /** Lower-casing twice is lower-casing once. */
  lemma ToLowerIdempotent(s: string)
    ensures ToLower(ToLower(s)) == ToLower(s)
  {
    var once := ToLower(s);
    forall i | 0 <= i < |s| ensures ToLower(once)[i] == once[i] {
      assert once[i] == LowerChar(s[i]);
    }
  }

  /** The currency validator: the lower-cased code must be one of the four allowed ones and is
      returned lower-cased. */
  function ValidateCurrency(currency: string): (r: Result<string, string>)
    ensures r.Ok? <==> ToLower(currency) in AllowedCurrencies
    ensures r.Ok? ==> r.value == ToLower(currency) && r.value in AllowedCurrencies
    ensures r.Err? ==> r.error == UnsupportedCurrencyMessage
  {
    var lowered := ToLower(currency);
    if lowered !in AllowedCurrencies then Err(UnsupportedCurrencyMessage) else Ok(lowered)
  }

  /** Normalising an accepted currency again accepts it and changes nothing. */
  lemma ValidateCurrencyIdempotent(currency: string)
    requires ValidateCurrency(currency).Ok?
    ensures ValidateCurrency(ValidateCurrency(currency).value) == ValidateCurrency(currency)
  {
    ToLowerIdempotent(currency);
  }

  /** The default currency of a card request is accepted; upper-case "EUR" normalises to "eur". */
  lemma CurrencyExamples()
    ensures ValidateCurrency("pln") == Ok("pln")
    ensures ValidateCurrency("EUR") == Ok("eur")
  {
    assert ToLower("pln") == "pln";
    assert ToLower("EUR") == "eur";
  }
}
