/** The x402-NP payment gate of the MCP server: a paid tool answers a call
    that carries no payment evidence with a Payment Required body (the
    protocol borrows HTTP status 402 from section 15.5.3 of RFC 9110); a call
    that carries evidence is checked against the ledger, and only a verified
    call reaches the tool's handler, with the payment arguments removed. */
module PaymentGate {
  import opened Wrappers
  import opened Text
  import opened Points
  import opened Ledger

  /** A tool-call argument, as far as the gate tells values apart: JSON
      strings, numbers, booleans and null, and any array or object. */
  datatype Value = Str(s: string) | Num(x: real) | Bool(b: bool) | Null | Composite

  type Args = map<string, Value>

  const AgentKey: string := "_paymentAgent"
  const TxIdKey: string := "_paymentTxId"
  const AmountKey: string := "_paymentAmount"

  /** JavaScript truthiness. A key that is absent reads as `undefined`,
      which is falsy too. */
  predicate Truthy(v: Value) {
    match v
    case Str(s) => s != ""
    case Num(x) => x != 0.0
    case Bool(b) => b
    case Null => false
    case Composite => true
  }

  predicate Supplied(args: Args, key: string) {
    key in args && Truthy(args[key])
  }

  /** The three payment arguments, passed on as they are (the cast to string
      converts nothing). */
  datatype PaymentHeaders = PaymentHeaders(agent: Value, txId: Value, amount: Value)

  /** `extractPaymentHeaders`: all three payment arguments, or nothing when
      any of them is missing or falsy. */
  function ExtractPaymentHeaders(args: Args): (h: Option<PaymentHeaders>)
    ensures h.Some? <==> Supplied(args, AgentKey) && Supplied(args, TxIdKey) && Supplied(args, AmountKey)
    ensures h.Some? ==> h.value == PaymentHeaders(args[AgentKey], args[TxIdKey], args[AmountKey])
  {
    if Supplied(args, AgentKey) && Supplied(args, TxIdKey) && Supplied(args, AmountKey) then
      Some(PaymentHeaders(args[AgentKey], args[TxIdKey], args[AmountKey]))
    else None
  }

  /** `NPToolConfig`: the price in whole points, the agent paid, and an
      optional description. */
  datatype ToolConfig = ToolConfig(priceNP: nat, recipient: string, description: Option<string>)

  /** `parseFloat` of an argument: a string is parsed; a number is turned
      into its own decimal text, which reads back as the number; a boolean
      reads as NaN (`None`). */
  function ClaimedAmount(v: Value): (x: Option<real>)
    ensures v.Num? ==> x == Some(v.x)
    ensures v.Str? ==> x == ParseFloat(v.s)
  {
    match v
    case Str(s) => ParseFloat(s)
    case Num(x) => Some(x)
    case _ => None
  }

  /** The value a lookup filter compares with the stored names and ids,
      which are all strings. A number, boolean or null matches no stored
      string. An array or object is taken to match nothing as well, although
      Mongo reads an object such as `{$ne: ""}` as a query operator; this is
      sound only where the tool's schema admits strings alone. */
  function AsText(v: Value): Option<string> {
    match v
    case Str(s) => Some(s)
    case _ => None
  }

  /** `getAgentWithWallet(headers.agent)`. */
  function FindPayer(v: LedgerView, agent: Value): (w: Option<Wallet>)
    ensures w.Some? <==> exists name :: agent == Str(name) && name in v.agents && name in v.wallets
  {
    match AsText(agent)
    case None => None
    case Some(name) => AgentWithWallet(v, name)
  }

  /** `getReceiptByTx(headers.txId)`. */
  function FindReceipt(v: LedgerView, txId: Value): (r: Option<Receipt>)
    ensures r.Some? ==> r.value in v.receipts && txId == Str(r.value.txId)
  {
    match AsText(txId)
    case None => None
    case Some(id) => ReceiptByTx(v.receipts, id)
  }

  datatype Details =
    | AmountDetails(expected: nat, received: Option<real>)
    | AgentDetails(agent: Value)
    | TxDetails(txId: Value)
    | MismatchDetails(expectedFrom: Value, expectedTo: string, expectedAmount: nat,
                      actualFrom: string, actualTo: string, actualAmount: real)

  datatype GateError = GateError(message: string, data: Details)

  datatype Verification = Verified(amount: real, receipt: Receipt) | Refused(error: GateError)

  /** A receipt shows the payment: from the payer, to the recipient, and of
      the price in major units. */
  predicate ReceiptMatches(receipt: Receipt, agent: Value, config: ToolConfig) {
    agent == Str(receipt.fromAgent) && receipt.toAgent == config.recipient
    && ToMajorUnits(NandaPoints, receipt.amountMinor) == config.priceNP as real
  }

  /** `verifyPayment`: the claimed amount, then the payer, then the receipt,
      then the receipt's details; the first failed check is the error. */
  function VerifyPayment(h: PaymentHeaders, config: ToolConfig, v: LedgerView): (r: Verification)
    ensures r.Verified? ==>
      r.amount == config.priceNP as real && r.receipt in v.receipts && h.txId == Str(r.receipt.txId)
      && ReceiptMatches(r.receipt, h.agent, config) && FindPayer(v, h.agent).Some?
  {
    var amountNP := ClaimedAmount(h.amount);
    if amountNP != Some(config.priceNP as real) then
      Refused(GateError("Invalid payment amount", AmountDetails(config.priceNP, amountNP)))
    else if FindPayer(v, h.agent).None? then
      Refused(GateError("Invalid payment agent", AgentDetails(h.agent)))
    else
      match FindReceipt(v, h.txId)
      case None => Refused(GateError("Payment receipt not found", TxDetails(h.txId)))
      case Some(receipt) =>
        if !ReceiptMatches(receipt, h.agent, config) then
          Refused(GateError("Payment verification failed",
            MismatchDetails(h.agent, config.recipient, config.priceNP,
                            receipt.fromAgent, receipt.toAgent, ToMajorUnits(NandaPoints, receipt.amountMinor))))
        else Verified(amountNP.value, receipt)
  }

  /** What a paid call must show, stated on the ledger directly: the claimed
      amount is the price, the payer is a registered agent with a wallet, and
      the log holds a receipt under the claimed id from the payer to the
      recipient for the price. */
  predicate PaidFor(h: PaymentHeaders, config: ToolConfig, v: LedgerView) {
    ClaimedAmount(h.amount) == Some(config.priceNP as real)
    && (exists name :: h.agent == Str(name) && name in v.agents && name in v.wallets)
    && exists i :: 0 <= i < |v.receipts| && h.txId == Str(v.receipts[i].txId)
         && h.agent == Str(v.receipts[i].fromAgent) && v.receipts[i].toAgent == config.recipient
         && v.receipts[i].amountMinor == config.priceNP
  }

  /** With receipt ids unique, verification succeeds exactly on a paid call. */
  lemma VerifyPaymentMeansPaid(h: PaymentHeaders, config: ToolConfig, v: LedgerView)
    requires ReceiptIdsDistinct(v.receipts)
    ensures VerifyPayment(h, config, v).Verified? <==> PaidFor(h, config, v)
  {
    var r := VerifyPayment(h, config, v);
    if r.Verified? {
      var i :| 0 <= i < |v.receipts| && v.receipts[i] == r.receipt;
      NpToMajorUnits(r.receipt.amountMinor);
    }
    if PaidFor(h, config, v) {
      var i :| 0 <= i < |v.receipts| && h.txId == Str(v.receipts[i].txId)
         && h.agent == Str(v.receipts[i].fromAgent) && v.receipts[i].toAgent == config.recipient
         && v.receipts[i].amountMinor == config.priceNP;
      var found := FindReceipt(v, h.txId);
      assert found.Some?;
      var j :| 0 <= j < |v.receipts| && v.receipts[j] == found.value;
      assert i == j;
      NpToMajorUnits(config.priceNP);
    }
  }

  /** The checks run in the order amount, payer, receipt, match, and the
      first failure is the result. */
  lemma VerifyPaymentFirstFailure(h: PaymentHeaders, config: ToolConfig, v: LedgerView)
    ensures var r := VerifyPayment(h, config, v);
      && (ClaimedAmount(h.amount) != Some(config.priceNP as real) ==>
            r == Refused(GateError("Invalid payment amount", AmountDetails(config.priceNP, ClaimedAmount(h.amount)))))
      && (ClaimedAmount(h.amount) == Some(config.priceNP as real) && FindPayer(v, h.agent).None? ==>
            r == Refused(GateError("Invalid payment agent", AgentDetails(h.agent))))
      && (ClaimedAmount(h.amount) == Some(config.priceNP as real) && FindPayer(v, h.agent).Some?
          && FindReceipt(v, h.txId).None? ==>
            r == Refused(GateError("Payment receipt not found", TxDetails(h.txId))))
      && (ClaimedAmount(h.amount) == Some(config.priceNP as real) && FindPayer(v, h.agent).Some?
          && FindReceipt(v, h.txId).Some? && !ReceiptMatches(FindReceipt(v, h.txId).value, h.agent, config) ==>
            r.Refused? && r.error.message == "Payment verification failed")
  {
  }

  /** A wrong or unreadable amount is refused before the ledger is read: the
      answer is the same whatever the ledger holds. */
  lemma AmountDecidedFirst(h: PaymentHeaders, config: ToolConfig, v: LedgerView, w: LedgerView)
    requires ClaimedAmount(h.amount) != Some(config.priceNP as real)
    ensures VerifyPayment(h, config, v) == VerifyPayment(h, config, w)
    ensures VerifyPayment(h, config, v).Refused?
  {
  }

  /** `parseFloat` stops at the first character that cannot continue a
      number, so an amount argument such as "1 NP" or "1abc" is accepted as
      a claim of 1 point. */
  lemma ClaimedAmountIgnoresTrailingText(n: nat, rest: string)
    requires rest == [] || (!IsDigit(rest[0]) && rest[0] != '.')
    ensures ClaimedAmount(Str(NatToString(n) + rest)) == Some(n as real)
  {
    ParseFloatOfNumeral(n, rest);
  }

  // ---------------------------------------------------------------------------
  // Responses

  datatype Price = Price(amount: nat, currency: string, scale: nat, recipient: string)

  /** One line of the instructions in a Payment Required answer: transfer
      the price, then name the payment in three arguments, then retry.
      `StepText` gives each line's wording. */
  datatype PaymentStep =
    | TransferStep(priceNP: nat, recipient: string)
    | IncludeDetailsStep
    | AddArgumentStep(key: string, placeholder: string)
    | RetryStep

  function StepText(step: PaymentStep): (t: string)
    ensures step.TransferStep? ==> |t| >= |step.recipient| && t[|t| - |step.recipient|..] == step.recipient
    ensures step.AddArgumentStep? ==> OccursAt(t, step.key, 7) && OccursAt(t, step.placeholder, |step.key| + 11)
  {
    match step
    case TransferStep(price, recipient) =>
      "Use initiateTransaction tool to transfer " + NatToString(price) + " NP from your agent to " + recipient
    case IncludeDetailsStep => "Include the payment details when calling this tool:"
    case AddArgumentStep(key, placeholder) => "- Add \"" + key + "\": \"" + placeholder + "\" to arguments"
    case RetryStep => "Retry the tool call with payment arguments"
  }

  /** The JSON object of a Payment Required answer. */
  datatype PaymentRequired = PaymentRequired(
    error: string,
    protocol: string,
    tool: string,
    price: Price,
    description: string,
    steps: seq<PaymentStep>)

  /** The object of an error answer: the message and its data. */
  datatype ErrorBody = ErrorBody(error: string, details: Details)

  function PaymentSteps(config: ToolConfig): (steps: seq<PaymentStep>)
    ensures |steps| == 6 && steps[0] == TransferStep(config.priceNP, config.recipient) && steps[5] == RetryStep
    ensures RequestedArguments(steps) == {AgentKey, TxIdKey, AmountKey}
  {
    var steps := [ TransferStep(config.priceNP, config.recipient),
                   IncludeDetailsStep,
                   AddArgumentStep(AgentKey, "your-agent-name"),
                   AddArgumentStep(TxIdKey, "transaction-id"),
                   AddArgumentStep(AmountKey, "amount-paid"),
                   RetryStep ];
    assert steps[2].key == AgentKey && steps[3].key == TxIdKey && steps[4].key == AmountKey;
    steps
  }

  /** The argument names a list of steps asks the caller to add. */
  function RequestedArguments(steps: seq<PaymentStep>): set<string> {
    set i | 0 <= i < |steps| && steps[i].AddArgumentStep? :: steps[i].key
  }

  /** `createPaymentRequiredResponse`: the tool's price in NP at the NP
      scale, payable to the configured recipient; the steps ask first for a
      transfer of that price to that recipient, then for exactly the three
      arguments `extractPaymentHeaders` reads. */
  function PaymentRequiredResponse(toolName: string, config: ToolConfig): (r: PaymentRequired)
    ensures r.error == "PAYMENT_REQUIRED" && r.protocol == "x402-np" && r.tool == toolName
    ensures r.price == Price(config.priceNP, "NP", 0, config.recipient)
    ensures config.description.None? ==> r.description == "Payment required for " + toolName
    ensures config.description.Some? ==> r.description == config.description.value
    ensures |r.steps| > 0 && r.steps[0] == TransferStep(config.priceNP, config.recipient)
    ensures RequestedArguments(r.steps) == {AgentKey, TxIdKey, AmountKey}
  {
    var steps := PaymentSteps(config);
    PaymentRequired("PAYMENT_REQUIRED", "x402-np", toolName,
      Price(config.priceNP, NandaPoints.code, NandaPoints.scale, config.recipient),
      config.description.GetOr("Payment required for " + toolName),
      steps)
  }

  /** `createErrorResponse`. */
  function ErrorResponse(e: GateError): (b: ErrorBody)
    ensures b.error == e.message && b.details == e.data
  {
    ErrorBody(e.message, e.data)
  }

  /** The arguments the handler sees: a copy without the three payment
      arguments. */
  function StripPaymentFields(args: Args): (clean: Args)
    ensures clean.Keys == args.Keys - {AgentKey, TxIdKey, AmountKey}
    ensures forall k :: k in clean ==> clean[k] == args[k]
  {
    args - {AgentKey, TxIdKey, AmountKey}
  }

  /** What a gated tool answers with. */
  datatype Gated<R> = PaymentRequiredReply(required: PaymentRequired) | ErrorReply(body: ErrorBody) | Handled(result: R)

  /** `withPayment`: a call without evidence is answered with Payment
      Required; otherwise a refused verification is answered with its error,
      and a verified call runs the handler on the stripped arguments. */
  function WithPayment<R>(toolName: string, config: ToolConfig, handler: Args -> R, v: LedgerView, args: Args): (g: Gated<R>)
    ensures ExtractPaymentHeaders(args).None? ==> g == PaymentRequiredReply(PaymentRequiredResponse(toolName, config))
    ensures g.Handled? <==> ExtractPaymentHeaders(args).Some? && VerifyPayment(ExtractPaymentHeaders(args).value, config, v).Verified?
    ensures g.Handled? ==> g.result == handler(StripPaymentFields(args))
    ensures ExtractPaymentHeaders(args).Some? && VerifyPayment(ExtractPaymentHeaders(args).value, config, v).Refused? ==>
      g == ErrorReply(ErrorResponse(VerifyPayment(ExtractPaymentHeaders(args).value, config, v).error))
  {
    match ExtractPaymentHeaders(args)
    case None => PaymentRequiredReply(PaymentRequiredResponse(toolName, config))
    case Some(headers) =>
      match VerifyPayment(headers, config, v)
      case Refused(e) => ErrorReply(ErrorResponse(e))
      case Verified(_, _) => Handled(handler(StripPaymentFields(args)))
  }

  /** The handler runs only on a paid call. */
  lemma WithPaymentSound<R>(toolName: string, config: ToolConfig, handler: Args -> R, v: LedgerView, args: Args)
    requires ReceiptIdsDistinct(v.receipts)
    requires WithPayment(toolName, config, handler, v, args).Handled?
    ensures PaidFor(ExtractPaymentHeaders(args).value, config, v)
  {
    VerifyPaymentMeansPaid(ExtractPaymentHeaders(args).value, config, v);
  }

  /** Paying as the Payment Required body instructs opens the gate: after a
      transfer of the price from a registered agent to the recipient, a call
      naming the payer, the transaction id and `String(priceNP)` reaches the
      handler. */
  lemma PayThenCall<R>(toolName: string, config: ToolConfig, handler: Args -> R, v: LedgerView,
                       payer: string, task: Option<string>, txId: string, clock: TransferClock, args: Args)
    requires Consistent(v) && FreshTxId(v, txId)
    requires payer in v.agents && payer in v.wallets && config.recipient in v.wallets
    requires v.wallets[payer].balanceMinor >= config.priceNP
    requires payer != "" && txId != ""
    requires AgentKey in args && args[AgentKey] == Str(payer)
    requires TxIdKey in args && args[TxIdKey] == Str(txId)
    requires AmountKey in args && args[AmountKey] == Str(NatToString(config.priceNP))
    ensures var o := TransferSpec(v, payer, config.recipient, config.priceNP, task, txId, clock, NoFault);
      WithPayment(toolName, config, handler, o.view, args) == Handled(handler(StripPaymentFields(args)))
  {
    var h := PaymentHeaders(Str(payer), Str(txId), Str(NatToString(config.priceNP)));
    assert ExtractPaymentHeaders(args) == Some(h);
    TransferOpensGate(config, v, payer, task, txId, clock);
  }

  /** The transfer the Payment Required body asks for produces a receipt
      that verifies the payment it names. */
  lemma TransferOpensGate(config: ToolConfig, v: LedgerView, payer: string, task: Option<string>,
                          txId: string, clock: TransferClock)
    requires Consistent(v) && FreshTxId(v, txId)
    requires payer in v.agents && payer in v.wallets && config.recipient in v.wallets
    requires v.wallets[payer].balanceMinor >= config.priceNP
    ensures var o := TransferSpec(v, payer, config.recipient, config.priceNP, task, txId, clock, NoFault);
      VerifyPayment(PaymentHeaders(Str(payer), Str(txId), Str(NatToString(config.priceNP))), config, o.view).Verified?
  {
    var o := TransferSpec(v, payer, config.recipient, config.priceNP, task, txId, clock, NoFault);
    TransferReceiptNamesPayment(v, payer, config.recipient, config.priceNP, task, txId, clock);
    var receipt := o.result.value.receipt;
    ReceiptByTxAppended(v.receipts, receipt);
    ParseFloatOfNatToString(config.priceNP);
    NpToMajorUnits(config.priceNP);
    var h := PaymentHeaders(Str(payer), Str(txId), Str(NatToString(config.priceNP)));
    assert FindReceipt(o.view, h.txId) == Some(receipt);
    assert FindPayer(o.view, h.agent).Some?;
  }

  /** The gate only reads the ledger, and later operations only extend it:
      a receipt that authorized a call keeps authorizing calls, so one
      payment can be presented any number of times. */
  lemma NoReplayProtection(h: PaymentHeaders, config: ToolConfig, v: LedgerView, w: LedgerView)
    requires Extends(v, w)
    requires VerifyPayment(h, config, v).Verified?
    ensures VerifyPayment(h, config, w) == VerifyPayment(h, config, v)
  {
    var id := AsText(h.txId).value;
    ReceiptByTxStable(v.receipts, w.receipts[|v.receipts|..], id);
    assert w.receipts == v.receipts + w.receipts[|v.receipts|..];
  }
}
