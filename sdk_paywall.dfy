/** The TypeScript SDK's Express paywall, `x402NpExpress`: it reads three
    payment headers, fetches the receipt of the claimed transaction from the
    ledger's REST interface, and lets the request through to `next()` only
    when the receipt names the expected parties and the expected amount.
    The REST call is not modelled: its answer (a receipt object, or the
    message of what it threw) is a parameter. The client as written asks a
    route the receipts router does not serve, so its lookup throws and the
    paywall answers 500; a received receipt is the one served by
    transaction id. */
module SdkPaywall {
  import opened Wrappers
  import opened Text
  import opened Ledger
  import opened Points

  /** A request header as Node delivers it: one value, or several. */
  datatype HeaderValue = One(s: string) | Many(values: seq<string>)

  type Headers = map<string, HeaderValue>

  /** `header`: the value under `name`, else under its lower-case form; of
      several values the first one. */
  function Header(h: Headers, name: string): (r: Option<string>)
    ensures name in h && h[name].One? ==> r == Some(h[name].s)
    ensures name in h && h[name].Many? ==>
      r == (if h[name].values == [] then None else Some(h[name].values[0]))
    ensures name !in h && ToLower(name) in h && h[ToLower(name)].One? ==> r == Some(h[ToLower(name)].s)
    ensures name !in h && ToLower(name) in h && h[ToLower(name)].Many? ==>
      r == (if h[ToLower(name)].values == [] then None else Some(h[ToLower(name)].values[0]))
    ensures name !in h && ToLower(name) !in h ==> r == None
  {
    var v: Option<HeaderValue> := if name in h then Some(h[name])
             else if ToLower(name) in h then Some(h[ToLower(name)])
             else None;
    match v
    case None => None
    case Some(One(s)) => Some(s)
    case Some(Many(values)) => if values == [] then None else Some(values[0])
  }

  /** JavaScript truthiness of an optional string. */
  predicate Present(s: Option<string>) { s.Some? && s.value != "" }

  /** The paywall's configuration; prices are whole points. */
  datatype PaywallConfig = PaywallConfig(priceNP: nat, recipient: string, description: Option<string>)

  /** The receipt object the REST lookup answers with: every field as the
      JSON may (or may not) carry it. */
  datatype RestReceipt = RestReceipt(
    error: Option<string>,
    fromAgent: Option<string>,
    toAgent: Option<string>,
    amountMinor: Option<real>,
    scale: Option<int>)

  /** The REST rendering of a receipt the ledger stores: it has no `error`
      and no `scale` field. */
  function RestReceiptOf(r: Receipt): (rr: RestReceipt)
    ensures rr.error == None && rr.scale == None
    ensures rr.fromAgent == Some(r.fromAgent) && rr.toAgent == Some(r.toAgent)
    ensures rr.amountMinor == Some(r.amountMinor as real)
  {
    RestReceipt(None, Some(r.fromAgent), Some(r.toAgent), Some(r.amountMinor as real), None)
  }

  /** `Math.pow(10, scale)` for a whole exponent. */
  function Power10(scale: int): (p: real)
    ensures p > 0.0
  {
    if scale >= 0 then Pow10(scale) as real else 1.0 / Pow10(-scale) as real
  }

  /** `amountMinor / 10^scale` when the receipt has a scale; `None` stands
      for `undefined` and for `NaN` (a missing amount), which equal no
      number. */
  function AmountPoints(r: RestReceipt): (x: Option<real>)
    ensures r.scale == None ==> x == None
    ensures x.Some? <==> r.scale.Some? && r.amountMinor.Some?
    ensures x.Some? ==> x.value * Power10(r.scale.value) == r.amountMinor.value
  {
    if r.scale.Some? && r.amountMinor.Some? then Some(r.amountMinor.value / Power10(r.scale.value))
    else None
  }

  /** The `details` of an error body. */
  datatype Details =
    | TxIdDetails(txId: string)
    | PartyDetails(expectedFrom: string, expectedTo: string, actualFrom: Option<string>, actualTo: Option<string>)
    | AmountDetails(expected: nat, received: Option<real>)
    | ThrownDetails(error: string)

  datatype Body =
    | PaymentRequiredBody(error: string, protocol: string, priceAmount: nat, currency: string,
                          recipient: string, description: string, steps: seq<string>)
    | ErrorBody(message: string, details: Details)

  /** What the middleware does with the request. */
  datatype ExpressOutcome = Respond(status: nat, body: Body) | Next

  const ReceiptNotFound := "Payment receipt not found"
  const PartyMismatch := "Payment party mismatch"
  const InvalidAmount := "Invalid payment amount"
  const InternalError := "Internal error verifying payment"

  /** `paymentRequiredBody`. */
  function PaymentRequired(config: PaywallConfig): (b: Body)
    ensures b.PaymentRequiredBody? && b.error == "PAYMENT_REQUIRED" && b.protocol == "x402-np"
    ensures b.priceAmount == config.priceNP && b.currency == "NP" && b.recipient == config.recipient
    ensures b.description == config.description.GetOr("Payment required")
    ensures |b.steps| == 3
      && b.steps[0] == "Pay " + NatToString(config.priceNP) + " NP to " + config.recipient + " using initiateTransaction"
  {
    PaymentRequiredBody("PAYMENT_REQUIRED", "x402-np", config.priceNP, "NP", config.recipient,
                        config.description.GetOr("Payment required"),
                        ["Pay " + NatToString(config.priceNP) + " NP to " + config.recipient + " using initiateTransaction",
                         "Retry with headers:",
                         "X-PAYMENT-AGENT, X-PAYMENT-TX-ID, X-PAYMENT-AMOUNT"])
  }

  const AgentHeader := "x-payment-agent"
  const TxIdHeader := "x-payment-tx-id"
  const AmountHeader := "x-payment-amount"

  /** The decision chain of the middleware over the three header values it
      read, given how it computes a receipt's amount in points. */
  function Decide(config: PaywallConfig, agent: Option<string>, txId: Option<string>, amount: Option<string>,
                  lookup: Result<RestReceipt, string>, points: RestReceipt -> Option<real>): (r: ExpressOutcome)
    ensures r.Respond? ==> r.status == 402 || r.status == 500
    ensures r.Respond? && r.status == 500 <==>
      Present(agent) && Present(txId) && Present(amount) && lookup.Err?
    ensures r.Respond? && r.status == 500 ==> r.body == ErrorBody(InternalError, ThrownDetails(lookup.error))
  {
    if !Present(agent) || !Present(txId) || !Present(amount) then Respond(402, PaymentRequired(config))
    else match lookup
      case Err(thrown) => Respond(500, ErrorBody(InternalError, ThrownDetails(thrown)))
      case Ok(r) =>
        if Present(r.error) then Respond(402, ErrorBody(ReceiptNotFound, TxIdDetails(txId.value)))
        else if r.fromAgent != agent || r.toAgent != Some(config.recipient) then
          Respond(402, ErrorBody(PartyMismatch, PartyDetails(agent.value, config.recipient, r.fromAgent, r.toAgent)))
        else if points(r) != Some(config.priceNP as real) || amount.value != NatToString(config.priceNP) then
          Respond(402, ErrorBody(InvalidAmount, AmountDetails(config.priceNP, points(r))))
        else Next
  }

  /** `x402NpExpress`'s handler as written. */
  function X402NpExpress(config: PaywallConfig, h: Headers, lookup: Result<RestReceipt, string>): (r: ExpressOutcome)
    ensures r == Next ==> lookup.Ok? && lookup.value.scale.Some? && lookup.value.amountMinor.Some?
  {
    Decide(config, Header(h, AgentHeader), Header(h, TxIdHeader), Header(h, AmountHeader), lookup, AmountPoints)
  }

  /** The reference condition for letting a request through: all three
      headers given, the looked-up receipt is one without an error from the
      caller to the recipient, of the price both in the receipt and in the
      amount header. */
  predicate SdkPaidFor(config: PaywallConfig, agent: Option<string>, txId: Option<string>, amount: Option<string>,
                       lookup: Result<RestReceipt, string>, points: RestReceipt -> Option<real>)
  {
    Present(agent) && Present(txId) && amount == Some(NatToString(config.priceNP))
    && lookup.Ok? && !Present(lookup.value.error)
    && lookup.value.fromAgent == agent && lookup.value.toAgent == Some(config.recipient)
    && points(lookup.value) == Some(config.priceNP as real)
  }

  /** `next()` is reached exactly when the payment is shown. */
  lemma NextIffPaid(config: PaywallConfig, agent: Option<string>, txId: Option<string>, amount: Option<string>,
                    lookup: Result<RestReceipt, string>, points: RestReceipt -> Option<real>)
    ensures Decide(config, agent, txId, amount, lookup, points) == Next
        <==> SdkPaidFor(config, agent, txId, amount, lookup, points)
  {
    if amount == Some(NatToString(config.priceNP)) {
      assert Present(amount) by { assert |NatToString(config.priceNP)| > 0; }
    }
  }

  /** Any header missing (or empty) gives the 402 PAYMENT_REQUIRED body, and
      only then is that body sent. */
  lemma MissingHeadersRequirePayment(config: PaywallConfig, agent: Option<string>, txId: Option<string>,
                                     amount: Option<string>, lookup: Result<RestReceipt, string>)
    ensures Decide(config, agent, txId, amount, lookup, AmountPoints) == Respond(402, PaymentRequired(config))
        <==> !Present(agent) || !Present(txId) || !Present(amount)
  {
  }

  /** A lookup answering with an error is reported as a receipt not found,
      with the claimed transaction id. */
  lemma ErrorReceiptNotFound(config: PaywallConfig, agent: Option<string>, txId: Option<string>,
                             amount: Option<string>, r: RestReceipt)
    requires Present(agent) && Present(txId) && Present(amount) && Present(r.error)
    ensures Decide(config, agent, txId, amount, Ok(r), AmountPoints)
         == Respond(402, ErrorBody(ReceiptNotFound, TxIdDetails(txId.value)))
  {
  }

  /** The parties are checked before the amount: with the wrong parties the
      answer is a party mismatch whatever the amounts are. */
  lemma PartyBeforeAmount(config: PaywallConfig, agent: Option<string>, txId: Option<string>,
                          amount: Option<string>, amount': Option<string>, r: RestReceipt, r': RestReceipt)
    requires Present(agent) && Present(txId) && Present(amount) && Present(amount') && !Present(r.error)
    requires r.fromAgent != agent || r.toAgent != Some(config.recipient)
    requires r' == r.(amountMinor := r'.amountMinor, scale := r'.scale)
    ensures Decide(config, agent, txId, amount, Ok(r), AmountPoints).body.message == PartyMismatch
    ensures Decide(config, agent, txId, amount, Ok(r), AmountPoints)
         == Decide(config, agent, txId, amount', Ok(r'), AmountPoints)
  {
  }

  /** A receipt without a scale never passes the amount check. */
  lemma MissingScaleNeverPasses(config: PaywallConfig, h: Headers, lookup: Result<RestReceipt, string>)
    requires lookup.Ok? && lookup.value.scale == None
    ensures X402NpExpress(config, h, lookup) != Next
  {
    NextIffPaid(config, Header(h, AgentHeader), Header(h, TxIdHeader), Header(h, AmountHeader), lookup, AmountPoints);
  }

  /** An exception from the lookup becomes a 500 response carrying its
      message. */
  lemma ThrownIsInternalError(config: PaywallConfig, agent: Option<string>, txId: Option<string>,
                              amount: Option<string>, thrown: string)
    requires Present(agent) && Present(txId) && Present(amount)
    ensures Decide(config, agent, txId, amount, Err(thrown), AmountPoints)
         == Respond(500, ErrorBody(InternalError, ThrownDetails(thrown)))
  {
  }

  /** A receipt the ledger stores, served as it is, is never accepted. */
  lemma ServerReceiptNeverAccepted(config: PaywallConfig, h: Headers, r: Receipt)
    ensures X402NpExpress(config, h, Ok(RestReceiptOf(r))) != Next
  {
    MissingScaleNeverPasses(config, h, Ok(RestReceiptOf(r)));
  }

  /** The amount in points read at the NP scale (0) when the receipt carries
      no scale of its own. */
  function AmountPointsAtNpScale(r: RestReceipt): (x: Option<real>)
    ensures r.scale.Some? ==> x == AmountPoints(r)
    ensures r.scale == None ==> x == r.amountMinor
  {
    if r.scale.Some? then AmountPoints(r) else r.amountMinor
  }

  /** The middleware reading a scale-less receipt at the NP scale. */
  function X402NpExpressCorrected(config: PaywallConfig, h: Headers, lookup: Result<RestReceipt, string>): ExpressOutcome {
    Decide(config, Header(h, AgentHeader), Header(h, TxIdHeader), Header(h, AmountHeader), lookup, AmountPointsAtNpScale)
  }

  /** With that reading, a receipt the ledger stores for a payment of the
      price, by the caller to the recipient, lets the request through. */
  lemma CorrectedAcceptsServerReceipt(config: PaywallConfig, h: Headers, r: Receipt)
    requires Present(Header(h, AgentHeader)) && Present(Header(h, TxIdHeader))
    requires Header(h, AmountHeader) == Some(NatToString(config.priceNP))
    requires Header(h, AgentHeader) == Some(r.fromAgent) && r.toAgent == config.recipient
    requires r.amountMinor == config.priceNP
    ensures X402NpExpressCorrected(config, h, Ok(RestReceiptOf(r))) == Next
  {
    NextIffPaid(config, Header(h, AgentHeader), Header(h, TxIdHeader), Header(h, AmountHeader),
                Ok(RestReceiptOf(r)), AmountPointsAtNpScale);
  }

  /** The receipt that `transfer` files for a paid price passes the
      corrected middleware, provided the caller echoes the payer, the
      transaction id and the price. */
  lemma CorrectedAcceptsTransfer(v: LedgerView, config: PaywallConfig, payer: string, txId: string,
                                 task: Option<string>, clock: TransferClock, h: Headers)
    requires payer in v.wallets && config.recipient in v.wallets
    requires v.wallets[payer].balanceMinor >= config.priceNP
    requires Header(h, AgentHeader) == Some(payer) && payer != ""
    requires Header(h, TxIdHeader) == Some(txId) && txId != ""
    requires Header(h, AmountHeader) == Some(NatToString(config.priceNP))
    ensures var o := TransferSpec(v, payer, config.recipient, config.priceNP, task, txId, clock, NoFault);
      o.result.Ok? && X402NpExpressCorrected(config, h, Ok(RestReceiptOf(o.result.value.receipt))) == Next
  {
    TransferReceiptNamesPayment(v, payer, config.recipient, config.priceNP, task, txId, clock);
    var o := TransferSpec(v, payer, config.recipient, config.priceNP, task, txId, clock, NoFault);
    CorrectedAcceptsServerReceipt(config, h, o.result.value.receipt);
  }
}
