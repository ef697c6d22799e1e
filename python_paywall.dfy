/** The Python SDK's two paywalls over the same checks: `x402_np_flask`
    wraps a Flask view and answers a refused request itself, and
    `x402_np_fastapi` is a FastAPI dependency that raises an
    `HTTPException` for a refused request. Neither catches what the receipt
    lookup raises. The REST call is not modelled: its answer (a receipt
    dict, or what it raised) is a parameter. The client as written asks a
    route the receipts router does not serve, so its lookup raises out of
    both wrappers; a received receipt is the one served by transaction id. */
module PythonPaywall {
  import opened Wrappers
  import opened Text
  import opened Ledger
  import opened SdkPaywall

  /** Request headers as the frameworks deliver them: looked up without
      regard to case, here by their lower-cased names. */
  type PyHeaders = map<string, string>

  /** `request.headers.get(name)`. */
  function HeaderGet(h: PyHeaders, name: string): (r: Option<string>)
    ensures r.Some? <==> ToLower(name) in h
    ensures r.Some? ==> r.value == h[ToLower(name)]
  {
    if ToLower(name) in h then Some(h[ToLower(name)]) else None
  }

  /** The paywall's price as a float together with its `str` rendering. */
  datatype PyConfig = PyConfig(priceNp: real, priceText: string, recipient: string)

  /** `amountMinor / (10 ** scale)` when the receipt has a scale (`None`
      otherwise); with a scale but no amount the division raises. */
  function PyAmountPoints(r: RestReceipt): (x: Result<Option<real>, string>)
    ensures r.scale == None ==> x == Ok(None)
    ensures x.Err? <==> r.scale.Some? && r.amountMinor == None
    ensures x.Ok? && x.value.Some? ==> x.value.value * Power10(r.scale.value) == r.amountMinor.value
  {
    if r.scale == None then Ok(None)
    else if r.amountMinor == None then Err("TypeError")
    else Ok(Some(r.amountMinor.value / Power10(r.scale.value)))
  }

  datatype PyDetails =
    | PyTxIdDetails(txId: string)
    | PyPartyDetails(expectedFrom: string, expectedTo: string, actualFrom: Option<string>, actualTo: Option<string>)
    | PyAmountDetails(expected: real, received: Option<real>)

  datatype PyBody =
    | PyPaymentRequiredBody(error: string, protocol: string, priceAmount: real, currency: string,
                            recipient: string, steps: seq<string>)
    | PyErrorBody(message: string, details: PyDetails)

  /** `_payment_required_body`: no description, and two steps. */
  function PyPaymentRequired(config: PyConfig): (b: PyBody)
    ensures b.PyPaymentRequiredBody? && b.error == "PAYMENT_REQUIRED" && b.protocol == "x402-np"
    ensures b.priceAmount == config.priceNp && b.currency == "NP" && b.recipient == config.recipient
    ensures |b.steps| == 2
      && b.steps[0] == "Pay " + config.priceText + " NP to " + config.recipient + " using initiateTransaction"
  {
    PyPaymentRequiredBody("PAYMENT_REQUIRED", "x402-np", config.priceNp, "NP", config.recipient,
                          ["Pay " + config.priceText + " NP to " + config.recipient + " using initiateTransaction",
                           "Retry with headers: X-PAYMENT-AGENT, X-PAYMENT-TX-ID, X-PAYMENT-AMOUNT"])
  }

  /** What the checks decide, in both frameworks: refuse with a 402 body,
      let the request through, or let an exception out. */
  datatype PyDecision = Refuse(body: PyBody) | Admit | Raise(error: string)

  /** The checks of `wrapper` and of `dependency`, over the header values
      read. The two functions run the same chain of checks. */
  function PyDecide(config: PyConfig, agent: Option<string>, txId: Option<string>, amount: Option<string>,
                    lookup: Result<RestReceipt, string>,
                    points: RestReceipt -> Result<Option<real>, string>): (d: PyDecision)
    ensures d.Raise? && lookup.Err? ==> d.error == lookup.error
    ensures d.Raise? && lookup.Ok? ==> points(lookup.value) == Err(d.error)
  {
    if !Present(agent) || !Present(txId) || !Present(amount) then Refuse(PyPaymentRequired(config))
    else match lookup
      case Err(raised) => Raise(raised)
      case Ok(r) =>
        if Present(r.error) then Refuse(PyErrorBody(ReceiptNotFound, PyTxIdDetails(txId.value)))
        else match points(r)
          case Err(raised) => Raise(raised)
          case Ok(amountPoints) =>
            if r.fromAgent != agent || r.toAgent != Some(config.recipient) then
              Refuse(PyErrorBody(PartyMismatch, PyPartyDetails(agent.value, config.recipient, r.fromAgent, r.toAgent)))
            else if amountPoints != Some(config.priceNp) || amount.value != config.priceText then
              Refuse(PyErrorBody(InvalidAmount, PyAmountDetails(config.priceNp, amountPoints)))
            else Admit
  }

  /** What the Flask wrapper does: answer with a body and a status, call the
      wrapped view with the request's arguments, or let an exception out. */
  datatype FlaskOutcome = FlaskRespond(body: PyBody, status: nat) | CallWrapped | FlaskRaised(error: string)

  /** What the FastAPI dependency does: raise an `HTTPException`, return
      `None`, or let an exception out. */
  datatype FastApiOutcome = HttpException(status: nat, detail: PyBody) | Proceed | FastApiRaised(error: string)

  /** The wrapper returns a refusal as `(jsonify(body), 402)`. */
  function FlaskOf(d: PyDecision): (f: FlaskOutcome)
    ensures f == CallWrapped <==> d == Admit
    ensures d.Refuse? ==> f == FlaskRespond(d.body, 402)
    ensures d.Raise? ==> f == FlaskRaised(d.error)
  {
    match d
    case Refuse(body) => FlaskRespond(body, 402)
    case Admit => CallWrapped
    case Raise(e) => FlaskRaised(e)
  }

  /** The dependency raises a refusal as `HTTPException(402, body)`. */
  function FastApiOf(d: PyDecision): (a: FastApiOutcome)
    ensures a == Proceed <==> d == Admit
    ensures d.Refuse? ==> a == HttpException(402, d.body)
    ensures d.Raise? ==> a == FastApiRaised(d.error)
  {
    match d
    case Refuse(body) => HttpException(402, body)
    case Admit => Proceed
    case Raise(e) => FastApiRaised(e)
  }

  /** `x402_np_flask`'s wrapper as written. */
  function X402NpFlask(config: PyConfig, h: PyHeaders, lookup: Result<RestReceipt, string>): (f: FlaskOutcome)
    ensures f == CallWrapped ==> lookup.Ok? && lookup.value.scale.Some? && lookup.value.amountMinor.Some?
  {
    FlaskOf(PyDecide(config, HeaderGet(h, "X-PAYMENT-AGENT"), HeaderGet(h, "X-PAYMENT-TX-ID"),
                     HeaderGet(h, "X-PAYMENT-AMOUNT"), lookup, PyAmountPoints))
  }

  /** `x402_np_fastapi`'s dependency as written. */
  function X402NpFastApi(config: PyConfig, h: PyHeaders, lookup: Result<RestReceipt, string>): (a: FastApiOutcome)
    ensures a == Proceed ==> lookup.Ok? && lookup.value.scale.Some? && lookup.value.amountMinor.Some?
  {
    FastApiOf(PyDecide(config, HeaderGet(h, "x-payment-agent"), HeaderGet(h, "x-payment-tx-id"),
                       HeaderGet(h, "x-payment-amount"), lookup, PyAmountPoints))
  }

  /** The two frameworks' outcomes that mean the same thing. */
  predicate SameDecision(f: FlaskOutcome, a: FastApiOutcome) {
    match f
    case FlaskRespond(body, status) => a == HttpException(status, body)
    case CallWrapped => a == Proceed
    case FlaskRaised(e) => a == FastApiRaised(e)
  }

  /** Two names that agree character by character once lower-cased are
      the same lower-cased name. */
  lemma SameLower(s: string, t: string)
    requires |s| == |t| && forall i :: 0 <= i < |s| ==> LowerChar(s[i]) == LowerChar(t[i])
    ensures ToLower(s) == ToLower(t)
  {
  }

  /** The header names the two wrappers ask for differ only in case. */
  lemma AgentHeaderNamesAgree()
    ensures ToLower("X-PAYMENT-AGENT") == ToLower("x-payment-agent")
  {
    var upper, lower := "X-PAYMENT-AGENT", "x-payment-agent";
    SameLower(upper, lower);
  }

  lemma TxIdHeaderNamesAgree()
    ensures ToLower("X-PAYMENT-TX-ID") == ToLower("x-payment-tx-id")
  {
    var upper, lower := "X-PAYMENT-TX-ID", "x-payment-tx-id";
    SameLower(upper, lower);
  }

  lemma AmountHeaderNamesAgree()
    ensures ToLower("X-PAYMENT-AMOUNT") == ToLower("x-payment-amount")
  {
    var upper, lower := "X-PAYMENT-AMOUNT", "x-payment-amount";
    SameLower(upper, lower);
  }

  /** The Flask wrapper and the FastAPI dependency reach the same decision
      on every request and every lookup answer. */
  lemma FlaskAndFastApiAgree(config: PyConfig, h: PyHeaders, lookup: Result<RestReceipt, string>)
    ensures SameDecision(X402NpFlask(config, h, lookup), X402NpFastApi(config, h, lookup))
  {
    AgentHeaderNamesAgree();
    TxIdHeaderNamesAgree();
    AmountHeaderNamesAgree();
    var d := PyDecide(config, HeaderGet(h, "x-payment-agent"), HeaderGet(h, "x-payment-tx-id"),
                      HeaderGet(h, "x-payment-amount"), lookup, PyAmountPoints);
    assert X402NpFlask(config, h, lookup) == FlaskOf(d);
  }

  /** The reference condition for calling the wrapped view: all three
      headers given, the receipt carries no error and is from the caller to
      the recipient, of the price in points, and the amount header is the
      price as `str` renders it. */
  predicate PyPaidFor(config: PyConfig, agent: Option<string>, txId: Option<string>, amount: Option<string>,
                      lookup: Result<RestReceipt, string>, points: RestReceipt -> Result<Option<real>, string>)
  {
    Present(agent) && Present(txId) && Present(amount) && amount.value == config.priceText
    && lookup.Ok? && !Present(lookup.value.error)
    && lookup.value.fromAgent == agent && lookup.value.toAgent == Some(config.recipient)
    && points(lookup.value) == Ok(Some(config.priceNp))
  }

  /** The wrapped view is called exactly when the payment is shown. */
  lemma CallIffPaid(config: PyConfig, agent: Option<string>, txId: Option<string>, amount: Option<string>,
                    lookup: Result<RestReceipt, string>, points: RestReceipt -> Result<Option<real>, string>)
    ensures PyDecide(config, agent, txId, amount, lookup, points) == Admit
        <==> PyPaidFor(config, agent, txId, amount, lookup, points)
  {
  }

  /** Any header missing (or empty) gives the 402 PAYMENT_REQUIRED body, and
      only then is that body sent. */
  lemma PyMissingHeadersRequirePayment(config: PyConfig, agent: Option<string>, txId: Option<string>,
                                       amount: Option<string>, lookup: Result<RestReceipt, string>)
    ensures PyDecide(config, agent, txId, amount, lookup, PyAmountPoints) == Refuse(PyPaymentRequired(config))
        <==> !Present(agent) || !Present(txId) || !Present(amount)
  {
  }

  /** A receipt dict carrying an error is reported as a receipt not found,
      with the claimed transaction id, before anything else is read from it. */
  lemma PyErrorReceiptNotFound(config: PyConfig, agent: Option<string>, txId: Option<string>,
                               amount: Option<string>, r: RestReceipt)
    requires Present(agent) && Present(txId) && Present(amount) && Present(r.error)
    ensures PyDecide(config, agent, txId, amount, Ok(r), PyAmountPoints)
         == Refuse(PyErrorBody(ReceiptNotFound, PyTxIdDetails(txId.value)))
  {
  }

  /** A party mismatch is reported before any amount mismatch; but the
      amount is computed before the parties are compared, so a receipt with
      a scale and no amount raises whoever its parties are. */
  lemma PyPartyBeforeAmount(config: PyConfig, agent: Option<string>, txId: Option<string>,
                            amount: Option<string>, r: RestReceipt)
    requires Present(agent) && Present(txId) && Present(amount) && !Present(r.error)
    ensures r.scale.Some? && r.amountMinor == None ==>
      PyDecide(config, agent, txId, amount, Ok(r), PyAmountPoints) == Raise("TypeError")
    ensures (!(r.scale.Some? && r.amountMinor == None)
             && (r.fromAgent != agent || r.toAgent != Some(config.recipient))) ==>
      PyDecide(config, agent, txId, amount, Ok(r), PyAmountPoints)
      == Refuse(PyErrorBody(PartyMismatch, PyPartyDetails(agent.value, config.recipient, r.fromAgent, r.toAgent)))
  {
  }

  /** A receipt without a scale never passes the amount check. */
  lemma PyMissingScaleNeverPasses(config: PyConfig, h: PyHeaders, lookup: Result<RestReceipt, string>)
    requires lookup.Ok? && lookup.value.scale == None
    ensures X402NpFlask(config, h, lookup) != CallWrapped
    ensures X402NpFastApi(config, h, lookup) != Proceed
  {
    CallIffPaid(config, HeaderGet(h, "X-PAYMENT-AGENT"), HeaderGet(h, "X-PAYMENT-TX-ID"),
                HeaderGet(h, "X-PAYMENT-AMOUNT"), lookup, PyAmountPoints);
    FlaskAndFastApiAgree(config, h, lookup);
  }

  /** A receipt the ledger stores, served as it is, is never accepted. */
  lemma PyServerReceiptNeverAccepted(config: PyConfig, h: PyHeaders, r: Receipt)
    ensures X402NpFlask(config, h, Ok(RestReceiptOf(r))) != CallWrapped
    ensures X402NpFastApi(config, h, Ok(RestReceiptOf(r))) != Proceed
  {
    PyMissingScaleNeverPasses(config, h, Ok(RestReceiptOf(r)));
  }

  /** The amount in points read at the NP scale (0) when the receipt carries
      no scale of its own. */
  function PyAmountPointsAtNpScale(r: RestReceipt): (x: Result<Option<real>, string>)
    ensures r.scale.Some? ==> x == PyAmountPoints(r)
    ensures r.scale == None ==> x == Ok(r.amountMinor)
  {
    if r.scale.Some? then PyAmountPoints(r) else Ok(r.amountMinor)
  }

  /** The Flask wrapper reading a scale-less receipt at the NP scale. */
  function X402NpFlaskCorrected(config: PyConfig, h: PyHeaders, lookup: Result<RestReceipt, string>): FlaskOutcome {
    FlaskOf(PyDecide(config, HeaderGet(h, "X-PAYMENT-AGENT"), HeaderGet(h, "X-PAYMENT-TX-ID"),
                     HeaderGet(h, "X-PAYMENT-AMOUNT"), lookup, PyAmountPointsAtNpScale))
  }

  /** With that reading, a receipt the ledger stores for a payment of the
      price, by the caller to the recipient, lets the request through. */
  lemma CorrectedFlaskAcceptsServerReceipt(config: PyConfig, h: PyHeaders, r: Receipt)
    requires Present(HeaderGet(h, "X-PAYMENT-AGENT")) && Present(HeaderGet(h, "X-PAYMENT-TX-ID"))
    requires HeaderGet(h, "X-PAYMENT-AMOUNT") == Some(config.priceText) && config.priceText != ""
    requires HeaderGet(h, "X-PAYMENT-AGENT") == Some(r.fromAgent) && r.toAgent == config.recipient
    requires r.amountMinor as real == config.priceNp
    ensures X402NpFlaskCorrected(config, h, Ok(RestReceiptOf(r))) == CallWrapped
  {
    CallIffPaid(config, HeaderGet(h, "X-PAYMENT-AGENT"), HeaderGet(h, "X-PAYMENT-TX-ID"),
                HeaderGet(h, "X-PAYMENT-AMOUNT"), Ok(RestReceiptOf(r)), PyAmountPointsAtNpScale);
  }
}
