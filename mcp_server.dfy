/** The tools of the MCP server: balance and receipt lookups, the transfer
    tool, the payment information tool, and one paid tool, `getTimestamp`, behind
    the payment gate. Each tool first checks its input schema; a failed
    existence check is an answer, not an exception. */
module McpServer {
  import opened Wrappers
  import opened Points
  import opened Ledger
  import opened PaymentGate

  /** A tool call: arguments that fail the tool's input schema are refused
      before the handler runs. */
  datatype Call<R> = InvalidArguments | Answered(reply: R)

  /** `paidToolsConfig`: `getTimestamp` costs 1 NP, payable to "system". */
  const PaidToolsConfig: map<string, ToolConfig> :=
    map["getTimestamp" := ToolConfig(1, "system", Some("Get current server timestamp"))]

  // ---------------------------------------------------------------------------
  // getBalance

  datatype BalanceReply =
    | BalanceAgentNotFound(agentName: string)
    | Balance(agentName: string, currency: string, scale: nat, balanceMinor: int, balancePoints: real)

  /** `getBalance`: the balance of a registered agent with a wallet, in
      minor and in major units. */
  function GetBalance(v: LedgerView, agentName: string): (c: Call<BalanceReply>)
    ensures |agentName| == 0 <==> c.InvalidArguments?
    ensures c.Answered? ==> (c.reply.Balance? <==> agentName in v.agents && agentName in v.wallets)
    ensures c.Answered? && c.reply.BalanceAgentNotFound? ==> c.reply.agentName == agentName
    ensures c.Answered? && c.reply.Balance? ==>
      c.reply.agentName == agentName && c.reply.currency == "NP" && c.reply.scale == 0
      && c.reply.balanceMinor == v.wallets[agentName].balanceMinor
      && c.reply.balancePoints == c.reply.balanceMinor as real
  {
    if |agentName| == 0 then InvalidArguments
    else if AgentWithWallet(v, agentName).None? then Answered(BalanceAgentNotFound(agentName))
    else
      var balanceMinor := GetBalanceMinor(v, agentName);
      NpToMajorUnits(balanceMinor);
      Answered(Balance(agentName, NandaPoints.code, NandaPoints.scale, balanceMinor, ToMajorUnits(NandaPoints, balanceMinor)))
  }

  /** In a consistent ledger a reported balance is never negative. */
  lemma GetBalanceNonNegative(v: LedgerView, agentName: string)
    requires Consistent(v)
    requires GetBalance(v, agentName).Answered? && GetBalance(v, agentName).reply.Balance?
    ensures GetBalance(v, agentName).reply.balanceMinor >= 0
    ensures GetBalance(v, agentName).reply.balancePoints >= 0.0
  {
  }

  // ---------------------------------------------------------------------------
  // initiateTransaction

  /** What the transfer tool catches: an error thrown by `transfer`, or one
      thrown by `toMinorUnits` while computing its argument. */
  datatype Thrown = TransferThrew(error: TransferError) | ConversionThrew(thrown: PointsError)

  datatype TransactionReply =
    | SenderAgentNotFound(agentName: string)
    | ReceiverAgentNotFound(agentName: string)
    | TransactionFailed(error: Thrown)
    | TransactionDone(txId: string, status: TxStatus, amountPoints: real, currency: string, scale: nat,
                      from: string, to: string, createdAt: string, receipt: Receipt, payload: Receipt)

  datatype TransactionOutcome = TransactionOutcome(view: LedgerView, reply: TransactionReply)

  /** The input schema of the transfer tool: two non-empty names and a
      positive whole amount. */
  predicate TransferArguments(from: string, to: string, amount: real) {
    |from| >= 1 && |to| >= 1 && IsInteger(amount) && amount > 0.0
  }

  /** The handler body both servers share: both parties must be registered
      agents with wallets (sender first), then `transfer` runs on
      `toMinorUnits(amount)` and anything it throws is answered as an error. */
  function InitiateSpec(v: LedgerView, from: string, to: string, amount: real, task: Option<string>,
                        txId: string, clock: TransferClock, fault: UpdateFault): (o: TransactionOutcome)
    ensures o.view.agents == v.agents && o.view.wallets.Keys == v.wallets.Keys
    ensures o.reply.TransactionDone? ==>
      o.reply.txId == txId && o.reply.receipt.txId == txId && o.reply.amountPoints == amount
      && o.view.receipts == v.receipts + [o.reply.receipt] && |o.view.transactions| == |v.transactions| + 1
    ensures !o.reply.TransactionDone? ==> o.view.transactions == v.transactions && o.view.receipts == v.receipts
  {
    if AgentWithWallet(v, from).None? then TransactionOutcome(v, SenderAgentNotFound(from))
    else if AgentWithWallet(v, to).None? then TransactionOutcome(v, ReceiverAgentNotFound(to))
    else
      match ToMinorUnits(NandaPoints, amount)
      case Err(e) => TransactionOutcome(v, TransactionFailed(ConversionThrew(e)))
      case Ok(amountMinor) =>
        var o := TransferSpec(v, from, to, amountMinor, task, txId, clock, fault);
        match o.result
        case Err(e) => TransactionOutcome(o.view, TransactionFailed(TransferThrew(e)))
        case Ok(t) =>
          TransactionOutcome(o.view, TransactionDone(t.tx.txId, t.tx.status, amount, t.tx.currency, t.tx.scale,
                                                     t.tx.fromAgent, t.tx.toAgent, t.tx.createdAt, t.receipt, t.payload))
  }

  /** The sender is checked before the receiver, and either failure is
      answered without calling `transfer`, so the ledger is unchanged. */
  lemma InitiateChecksAgentsFirst(v: LedgerView, from: string, to: string, amount: real, task: Option<string>,
                                  txId: string, clock: TransferClock, fault: UpdateFault)
    ensures var o := InitiateSpec(v, from, to, amount, task, txId, clock, fault);
      && (o.reply.SenderAgentNotFound? <==> !(from in v.agents && from in v.wallets))
      && (o.reply.ReceiverAgentNotFound? <==>
            from in v.agents && from in v.wallets && !(to in v.agents && to in v.wallets))
      && (o.reply.SenderAgentNotFound? || o.reply.ReceiverAgentNotFound? ==> o.view == v)
      && (o.reply.SenderAgentNotFound? ==> o.reply.agentName == from)
      && (o.reply.ReceiverAgentNotFound? ==> o.reply.agentName == to)
  {
  }

  /** Every error `transfer` throws comes back as an answer naming it, and
      the ledger is then the one `transfer` left behind; a schema-valid
      amount never makes the conversion throw. */
  lemma InitiateErrorsAreAnswers(v: LedgerView, from: string, to: string, amount: real, task: Option<string>,
                                 txId: string, clock: TransferClock, fault: UpdateFault)
    requires TransferArguments(from, to, amount)
    requires from in v.agents && from in v.wallets && to in v.agents && to in v.wallets
    ensures var o := InitiateSpec(v, from, to, amount, task, txId, clock, fault);
      var t := TransferSpec(v, from, to, amount.Floor, task, txId, clock, fault);
      && !(o.reply.TransactionFailed? && o.reply.error.ConversionThrew?)
      && o.view == t.view
      && (t.result.Err? ==> o.reply == TransactionFailed(TransferThrew(t.result.error)))
      && (t.result.Ok? ==> o.reply.TransactionDone?)
  {
    WholeAmountConverts(amount);
  }

  lemma WholeAmountConverts(amount: real)
    requires IsInteger(amount) && amount > 0.0
    ensures amount.Floor >= 0 && ToMinorUnits(NandaPoints, amount) == Ok(amount.Floor)
  {
    ToMinorUnitsOfExact(NandaPoints, amount, amount.Floor);
  }

  /** A successful answer echoes the transaction: its id, status, parties and
      creation time, the amount as given, and the receipt of that very
      transfer, which is also the payload. */
  lemma InitiateSucceeds(v: LedgerView, from: string, to: string, amount: real, task: Option<string>,
                         txId: string, clock: TransferClock)
    requires TransferArguments(from, to, amount)
    requires from in v.agents && from in v.wallets && to in v.agents && to in v.wallets
    requires v.wallets[from].balanceMinor as real >= amount
    ensures var o := InitiateSpec(v, from, to, amount, task, txId, clock, NoFault);
      && o.reply.TransactionDone?
      && o.reply.txId == txId && o.reply.status == Completed && o.reply.amountPoints == amount
      && o.reply.from == from && o.reply.to == to && o.reply.createdAt == clock.createdAt
      && o.reply.currency == "NP" && o.reply.scale == 0
      && o.reply.receipt == o.reply.payload && o.reply.receipt.txId == txId
      && o.reply.receipt.amountMinor as real == amount
      && o.view.receipts == v.receipts + [o.reply.receipt]
  {
    WholeAmountConverts(amount);
  }

  /** `initiateTransaction` of this server, which calls `transfer` without a
      task. */
  method InitiateTransaction(ledger: Ledger, from: string, to: string, amount: real,
                             txId: string, clock: TransferClock, fault: UpdateFault)
    returns (c: Call<TransactionReply>)
    modifies ledger
    requires ledger.Valid() && FreshTxId(ledger.View(), txId)
    ensures ledger.Valid()
    ensures !TransferArguments(from, to, amount) ==> c == InvalidArguments && ledger.View() == old(ledger.View())
    ensures TransferArguments(from, to, amount) ==>
      c.Answered?
      && TransactionOutcome(ledger.View(), c.reply) == InitiateSpec(old(ledger.View()), from, to, amount, None, txId, clock, fault)
  {
    if !TransferArguments(from, to, amount) {
      return InvalidArguments;
    }
    var reply := InitiateTransfer(ledger, from, to, amount, None, txId, clock, fault);
    c := Answered(reply);
  }

  /** The handler body, step by step, on the ledger in place. */
  method InitiateTransfer(ledger: Ledger, from: string, to: string, amount: real, task: Option<string>,
                          txId: string, clock: TransferClock, fault: UpdateFault)
    returns (reply: TransactionReply)
    modifies ledger
    requires ledger.Valid() && FreshTxId(ledger.View(), txId)
    ensures ledger.Valid()
    ensures TransactionOutcome(ledger.View(), reply) == InitiateSpec(old(ledger.View()), from, to, amount, task, txId, clock, fault)
  {
    var fromAgent := AgentWithWallet(ledger.View(), from);
    var toAgent := AgentWithWallet(ledger.View(), to);
    if fromAgent.None? {
      return SenderAgentNotFound(from);
    }
    if toAgent.None? {
      return ReceiverAgentNotFound(to);
    }
    var amountMinor := ToMinorUnits(NandaPoints, amount);
    if amountMinor.Err? {
      return TransactionFailed(ConversionThrew(amountMinor.error));
    }
    var result := ledger.Transfer(from, to, amountMinor.value, task, txId, clock, fault);
    match result {
      case Err(e) =>
        reply := TransactionFailed(TransferThrew(e));
      case Ok(t) =>
        reply := TransactionDone(t.tx.txId, t.tx.status, amount, t.tx.currency, t.tx.scale,
                                 t.tx.fromAgent, t.tx.toAgent, t.tx.createdAt, t.receipt, t.payload);
    }
  }

  // ---------------------------------------------------------------------------
  // getReceipt

  datatype ReceiptReply = ReceiptFound(receipt: Receipt) | ReceiptNotFound

  /** `getReceipt`: the stored receipt, or the NOT_FOUND error. */
  function GetReceipt(v: LedgerView, txId: string): (c: Call<ReceiptReply>)
    ensures |txId| == 0 <==> c.InvalidArguments?
    ensures c.Answered? ==>
      (c.reply.ReceiptNotFound? <==> forall i :: 0 <= i < |v.receipts| ==> v.receipts[i].txId != txId)
    ensures c.Answered? && c.reply.ReceiptFound? ==> c.reply.receipt in v.receipts && c.reply.receipt.txId == txId
  {
    if |txId| == 0 then InvalidArguments
    else
      match ReceiptByTx(v.receipts, txId)
      case None => Answered(ReceiptNotFound)
      case Some(r) => Answered(ReceiptFound(r))
  }

  /** The receipt a successful transfer answers with is the one `getReceipt`
      returns for its id afterwards. */
  lemma ReceiptOfTransactionIsStored(v: LedgerView, from: string, to: string, amount: real, task: Option<string>,
                                     txId: string, clock: TransferClock)
    requires FreshTxId(v, txId) && txId != ""
    requires InitiateSpec(v, from, to, amount, task, txId, clock, NoFault).reply.TransactionDone?
    ensures var o := InitiateSpec(v, from, to, amount, task, txId, clock, NoFault);
      GetReceipt(o.view, txId) == Answered(ReceiptFound(o.reply.receipt))
  {
    var o := InitiateSpec(v, from, to, amount, task, txId, clock, NoFault);
    var t := TransferSpec(v, from, to, ToMinorUnits(NandaPoints, amount).value, task, txId, clock, NoFault);
    assert o.view.receipts == v.receipts + [t.result.value.receipt];
    ReceiptByTxAppended(v.receipts, t.result.value.receipt);
  }

  // ---------------------------------------------------------------------------
  // getTimestamp, the paid tool

  datatype TimestampReply = TimestampReply(timestamp: string, unixTimestamp: int, serverTime: string, timezone: string)

  /** The payment arguments are optional strings in the tool's schema. */
  predicate TimestampArguments(args: Args) {
    forall k :: k in args && k in {AgentKey, TxIdKey, AmountKey} ==> args[k].Str?
  }

  /** The handler behind the gate: the clock's ISO time and its whole
      seconds since the epoch, in UTC. */
  function TimestampHandler(isoNow: string, nowMillis: nat): (handler: Args -> TimestampReply)
    ensures forall args :: (handler(args).timestamp == isoNow && handler(args).serverTime == isoNow
                            && handler(args).timezone == "UTC"
                            && handler(args).unixTimestamp * 1000 <= nowMillis < handler(args).unixTimestamp * 1000 + 1000)
  {
    (args: Args) => TimestampReply(isoNow, nowMillis / 1000, isoNow, "UTC")
  }

  /** `getTimestamp`: the timestamp handler behind `withPayment` at the
      configured price. */
  function GetTimestamp(v: LedgerView, args: Args, isoNow: string, nowMillis: nat): (c: Call<Gated<TimestampReply>>)
    ensures c.InvalidArguments? <==> !TimestampArguments(args)
    ensures c.Answered? ==>
      c.reply == WithPayment("getTimestamp", PaidToolsConfig["getTimestamp"], TimestampHandler(isoNow, nowMillis), v, args)
  {
    if !TimestampArguments(args) then InvalidArguments
    else Answered(WithPayment("getTimestamp", PaidToolsConfig["getTimestamp"], TimestampHandler(isoNow, nowMillis), v, args))
  }

  /** Called without payment, `getTimestamp` asks for 1 NP payable to
      "system", and its handler does not run. */
  lemma GetTimestampRequiresPayment(v: LedgerView, args: Args, isoNow: string, nowMillis: nat)
    requires TimestampArguments(args) && ExtractPaymentHeaders(args).None?
    ensures var c := GetTimestamp(v, args, isoNow, nowMillis);
      c.Answered? && c.reply.PaymentRequiredReply?
      && c.reply.required.price == Price(1, "NP", 0, "system")
      && c.reply.required.description == "Get current server timestamp"
  {
  }

  /** Paid for, `getTimestamp` answers with the clock's reading. */
  lemma GetTimestampWhenPaid(v: LedgerView, args: Args, isoNow: string, nowMillis: nat)
    requires TimestampArguments(args) && ExtractPaymentHeaders(args).Some?
    requires ReceiptIdsDistinct(v.receipts)
    requires PaidFor(ExtractPaymentHeaders(args).value, PaidToolsConfig["getTimestamp"], v)
    ensures GetTimestamp(v, args, isoNow, nowMillis)
         == Answered(Handled(TimestampReply(isoNow, nowMillis / 1000, isoNow, "UTC")))
  {
    VerifyPaymentMeansPaid(ExtractPaymentHeaders(args).value, PaidToolsConfig["getTimestamp"], v);
  }

  // ---------------------------------------------------------------------------
  // getPaymentInfo

  /** One line of the instructions `getPaymentInfo` publishes; `InfoStepText`
      gives its wording. */
  datatype InfoStep =
    | CallFirstStep
    | PayStep
    | IncludeHeaderStep(item: string, header: string)
    | RetryWithHeadersStep

  function InfoStepText(step: InfoStep): string {
    match step
    case CallFirstStep => "To use a paid tool, first call it normally to get a 402 Payment Required response"
    case PayStep => "Use the initiateTransaction tool to pay the required amount to the specified recipient"
    case IncludeHeaderStep(item, header) => "Include " + item + " in the " + header + " header"
    case RetryWithHeadersStep => "Retry the original tool call with these headers"
  }

  datatype PaymentInfo = PaymentInfo(protocol: string, currency: string, scale: nat,
                                     tools: map<string, ToolConfig>, steps: seq<InfoStep>)

  /** `getPaymentInfo`: the protocol, the currency, the configuration of
      every paid tool, and six instructions whose middle three name the
      X-PAYMENT headers. */
  function GetPaymentInfo(): (info: PaymentInfo)
    ensures info.protocol == "x402-np" && info.currency == "NP" && info.scale == 0
    ensures info.tools == PaidToolsConfig && |info.steps| == 6
    ensures info.steps[2].IncludeHeaderStep? && info.steps[2].header == "X-PAYMENT-TX-ID"
    ensures info.steps[3].IncludeHeaderStep? && info.steps[3].header == "X-PAYMENT-AGENT"
    ensures info.steps[4].IncludeHeaderStep? && info.steps[4].header == "X-PAYMENT-AMOUNT"
  {
    PaymentInfo("x402-np", NandaPoints.code, NandaPoints.scale, PaidToolsConfig,
      [ CallFirstStep,
        PayStep,
        IncludeHeaderStep("the transaction ID", "X-PAYMENT-TX-ID"),
        IncludeHeaderStep("your agent name", "X-PAYMENT-AGENT"),
        IncludeHeaderStep("the payment amount", "X-PAYMENT-AMOUNT"),
        RetryWithHeadersStep ])
  }

  /** The published instructions name headers, but the gate reads its
      evidence from three tool arguments, and none of them has one of those
      header names. */
  lemma PaymentInfoNamesNoGateArgument(i: nat)
    requires i < |GetPaymentInfo().steps| && GetPaymentInfo().steps[i].IncludeHeaderStep?
    ensures GetPaymentInfo().steps[i].header !in {AgentKey, TxIdKey, AmountKey}
  {
    var header := GetPaymentInfo().steps[i].header;
    assert header[0] == 'X';
  }

  /** The published price list agrees with what the gate demands: for every
      paid tool, the Payment Required answer quotes the listed price and
      recipient. */
  lemma PaymentInfoMatchesGate(toolName: string)
    requires toolName in GetPaymentInfo().tools
    ensures var config := GetPaymentInfo().tools[toolName];
      PaymentRequiredResponse(toolName, config).price == Price(config.priceNP, GetPaymentInfo().currency, GetPaymentInfo().scale, config.recipient)
  {
  }
}
