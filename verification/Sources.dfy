/** Classification of payment sources. */
module Sources {
  import opened Results
  import opened Text

  const CREDIT_CARD := "credit_card"
  const PAYMENT_TYPES: seq<string> := [
    "promptpay", CREDIT_CARD, "truemoney_jumpapp", "rabbit_linepay", "mobile_banking_scb",
    "mobile_banking_kbank", "mobile_banking_bay", "mobile_banking_bbl", "mobile_banking_ktb"
  ]

  /** `retrieved` is the type the provider reports for the source, `None` when the lookup fails. */
  function FindPaymentType(sourceId: string, retrieved: Option<string>): Option<string> {
    if StartsWith(sourceId, "tokn_") then Some(CREDIT_CARD)
    else if StartsWith(sourceId, "src_") then retrieved
    else None
  }

  /** The test `charge` makes before it touches the transaction. */
  predicate Chargeable(sourceId: string, retrieved: Option<string>) {
    var paymentType := FindPaymentType(sourceId, retrieved);
    paymentType.Some? && paymentType.value in PAYMENT_TYPES
  }

  predicate RecognisedSource(sourceId: string) {
    StartsWith(sourceId, "tokn_") || StartsWith(sourceId, "src_")
  }

  /** The supported payment types by name. */
  ghost predicate Supported(name: string) {
    || name == "promptpay" || name == "credit_card" || name == "truemoney_jumpapp" || name == "rabbit_linepay"
    || name == "mobile_banking_scb" || name == "mobile_banking_kbank" || name == "mobile_banking_bay"
    || name == "mobile_banking_bbl" || name == "mobile_banking_ktb"
  }

  lemma SupportedTypes(name: string)
    ensures name in PAYMENT_TYPES <==> Supported(name)
  {
    assert PAYMENT_TYPES[0] == "promptpay" && PAYMENT_TYPES[1] == "credit_card" && PAYMENT_TYPES[2] == "truemoney_jumpapp";
    assert PAYMENT_TYPES[3] == "rabbit_linepay" && PAYMENT_TYPES[4] == "mobile_banking_scb";
    assert PAYMENT_TYPES[5] == "mobile_banking_kbank" && PAYMENT_TYPES[6] == "mobile_banking_bay";
    assert PAYMENT_TYPES[7] == "mobile_banking_bbl" && PAYMENT_TYPES[8] == "mobile_banking_ktb";
  }

  /** A card token, or a source whose reported type is supported. */
  ghost predicate TokenOrSupported(sourceId: string, retrieved: Option<string>) {
    || (|sourceId| >= 5 && sourceId[..5] == "tokn_")
    || (|sourceId| >= 4 && sourceId[..4] == "src_" && retrieved.Some? && Supported(retrieved.value))
  }

  /** A source is chargeable exactly when it is a card token, or a source whose reported type is supported. */
  lemma ChargeableExactly(sourceId: string, retrieved: Option<string>)
    ensures Chargeable(sourceId, retrieved) <==> TokenOrSupported(sourceId, retrieved)
    ensures Chargeable(sourceId, retrieved) ==> RecognisedSource(sourceId) && sourceId != ""
  {
    assert PAYMENT_TYPES[1] == CREDIT_CARD;
    if retrieved.Some? { SupportedTypes(retrieved.value); }
  }

  /** The types reported for a source: a card for every token, the provider's answer for a source, nothing else. */
  lemma PaymentTypeByPrefix(sourceId: string, retrieved: Option<string>)
    ensures
      var token := |sourceId| >= 5 && sourceId[..5] == "tokn_";
      var source := |sourceId| >= 4 && sourceId[..4] == "src_";
      && (token ==> FindPaymentType(sourceId, retrieved) == Some("credit_card"))
      && (source ==> FindPaymentType(sourceId, retrieved) == retrieved)
      && (!token && !source ==> FindPaymentType(sourceId, retrieved) == None)
      && (RecognisedSource(sourceId) <==> token || source)
  {
    assert |sourceId| >= 4 && sourceId[..4] == "src_" ==> sourceId[0] == 's';
    assert |sourceId| >= 5 && sourceId[..5] == "tokn_" ==> sourceId[0] == 't';
  }
}
