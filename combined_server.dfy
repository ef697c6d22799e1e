/** The tools of the combined MCP and REST server that differ from the MCP
    server's: a transfer tool that records the task paid for, and
    `attachWallet`. Its `getBalance` and `getReceipt` run the same code as
    the MCP server's and are modelled once there. */
module CombinedServer {
  import opened Wrappers
  import opened Points
  import opened Ledger
  import opened McpServer

  /** The input schema of this server's transfer tool adds a non-empty task. */
  predicate TaskTransferArguments(from: string, to: string, amount: real, task: string) {
    TransferArguments(from, to, amount) && |task| >= 1
  }

  /** `initiateTransaction`, forwarding the task to `transfer`. */
  method InitiateTransaction(ledger: Ledger, from: string, to: string, amount: real, task: string,
                             txId: string, clock: TransferClock, fault: UpdateFault)
    returns (c: Call<TransactionReply>)
    modifies ledger
    requires ledger.Valid() && FreshTxId(ledger.View(), txId)
    ensures ledger.Valid()
    ensures !TaskTransferArguments(from, to, amount, task) ==> c == InvalidArguments && ledger.View() == old(ledger.View())
    ensures TaskTransferArguments(from, to, amount, task) ==>
      c.Answered?
      && TransactionOutcome(ledger.View(), c.reply) == InitiateSpec(old(ledger.View()), from, to, amount, Some(task), txId, clock, fault)
  {
    if !TaskTransferArguments(from, to, amount, task) {
      return InvalidArguments;
    }
    var reply := InitiateTransfer(ledger, from, to, amount, Some(task), txId, clock, fault);
    c := Answered(reply);
  }

  /** The task given to the tool is the task of the logged transaction. */
  lemma TaskIsRecorded(v: LedgerView, from: string, to: string, amount: real, task: string,
                       txId: string, clock: TransferClock)
    requires TaskTransferArguments(from, to, amount, task)
    requires from in v.agents && from in v.wallets && to in v.agents && to in v.wallets
    requires v.wallets[from].balanceMinor as real >= amount
    ensures var o := InitiateSpec(v, from, to, amount, Some(task), txId, clock, NoFault);
      |o.view.transactions| == |v.transactions| + 1
      && o.view.transactions[|v.transactions|].task == Some(task)
      && o.view.transactions[|v.transactions|].txId == txId
  {
    WholeAmountConverts(amount);
    TransferChecks(v, from, to, amount.Floor, Some(task), txId, clock, NoFault);
  }

  // ---------------------------------------------------------------------------
  // attachWallet

  datatype AttachReply =
    | AttachAgentNotFound(agentName: string)
    | Attached(agentName: string, walletId: string, balanceMinor: int, balancePoints: real, message: string)
    | AttachThrew(error: Option<WalletError>)

  datatype AttachOutcome = AttachOutcome(view: LedgerView, reply: AttachReply)

  /** The input schema: a non-empty name and, if given, a whole
      non-negative seed. */
  predicate AttachArguments(agentName: string, seedPoints: Option<real>) {
    |agentName| >= 1 && (seedPoints.Some? ==> IsInteger(seedPoints.value) && seedPoints.value >= 0.0)
  }

  const AttachedMessage := "Wallet successfully attached to agent"

  /** The handler body over `attachWallet`, taken to answer nothing for an
      unregistered agent and otherwise to run `ensureWallet` for it. An
      error thrown on the way, or a missing wallet read through, escapes the
      handler (`AttachThrew`). */
  function AttachWalletSpec(v: LedgerView, agentName: string, seedPoints: Option<real>,
                            walletId: string, now: string, insert: InsertOutcome): (o: AttachOutcome)
    ensures o.view.agents == v.agents && o.view.transactions == v.transactions && o.view.receipts == v.receipts
    ensures forall name :: name in v.wallets ==> name in o.view.wallets && o.view.wallets[name] == v.wallets[name]
    ensures o.reply.Attached? ==>
      agentName in v.agents && agentName in o.view.wallets
      && o.reply.walletId == o.view.wallets[agentName].walletId
      && o.reply.balanceMinor == o.view.wallets[agentName].balanceMinor
  {
    if agentName !in v.agents then AttachOutcome(v, AttachAgentNotFound(agentName))
    else
      var o := EnsureWalletSpec(v, agentName, seedPoints, walletId, now, insert);
      match o.result
      case Err(e) => AttachOutcome(o.view, AttachThrew(Some(e)))
      case Ok(None) => AttachOutcome(o.view, AttachThrew(None))
      case Ok(Some(w)) =>
        AttachOutcome(o.view, Attached(agentName, w.walletId, w.balanceMinor,
                                       ToMajorUnits(NandaPoints, w.balanceMinor), AttachedMessage))
  }

  /** An unknown agent is reported as not found and nothing is created. */
  lemma AttachUnknownAgent(v: LedgerView, agentName: string, seedPoints: Option<real>,
                           walletId: string, now: string, insert: InsertOutcome)
    requires agentName !in v.agents
    ensures AttachWalletSpec(v, agentName, seedPoints, walletId, now, insert)
         == AttachOutcome(v, AttachAgentNotFound(agentName))
  {
  }

  /** A report of an attached wallet describes the wallet now filed for the
      agent, with its balance in minor and in major units. */
  lemma AttachReportsFiledWallet(v: LedgerView, agentName: string, seedPoints: Option<real>,
                                 walletId: string, now: string, insert: InsertOutcome)
    requires AttachWalletSpec(v, agentName, seedPoints, walletId, now, insert).reply.Attached?
    ensures var o := AttachWalletSpec(v, agentName, seedPoints, walletId, now, insert);
      agentName in v.agents && agentName in o.view.wallets
      && o.reply.walletId == o.view.wallets[agentName].walletId
      && o.reply.balanceMinor == o.view.wallets[agentName].balanceMinor
      && o.reply.balancePoints == o.reply.balanceMinor as real
      && o.reply.message == AttachedMessage
  {
    var o := AttachWalletSpec(v, agentName, seedPoints, walletId, now, insert);
    EnsureWalletIdempotent(v, agentName, seedPoints, walletId, now, insert, walletId, now, insert);
    NpToMajorUnits(o.reply.balanceMinor);
  }

  /** A seed the schema admits never makes `ensureWallet` throw, and a new
      wallet is seeded with exactly that many points (1000 by default). */
  lemma AttachSeedsNewWallet(v: LedgerView, agentName: string, seedPoints: Option<real>,
                             walletId: string, now: string)
    requires AttachArguments(agentName, seedPoints)
    requires agentName in v.agents && agentName !in v.wallets && !WalletIdInUse(v.wallets, walletId)
    ensures var o := AttachWalletSpec(v, agentName, seedPoints, walletId, now, Attempted);
      o.reply.Attached? && o.reply.walletId == walletId
      && o.reply.balanceMinor as real == seedPoints.GetOr(DefaultSeedPoints as real)
  {
    var seed := seedPoints.GetOr(DefaultSeedPoints as real);
    ToMinorUnitsOfExact(NandaPoints, seed, seed.Floor);
    EnsureWalletCreates(v, agentName, seedPoints, walletId, now);
  }

  /** `attachWallet`, step by step, on the ledger in place. */
  method AttachWallet(ledger: Ledger, agentName: string, seedPoints: Option<real>,
                      walletId: string, now: string, insert: InsertOutcome)
    returns (c: Call<AttachReply>)
    modifies ledger
    requires ledger.Valid()
    requires insert.Raced? ==> !WalletIdInUse(ledger.wallets, insert.winnerId)
    ensures ledger.Valid()
    ensures !AttachArguments(agentName, seedPoints) ==> c == InvalidArguments && ledger.View() == old(ledger.View())
    ensures AttachArguments(agentName, seedPoints) ==>
      c.Answered?
      && AttachOutcome(ledger.View(), c.reply) == AttachWalletSpec(old(ledger.View()), agentName, seedPoints, walletId, now, insert)
  {
    if !AttachArguments(agentName, seedPoints) {
      return InvalidArguments;
    }
    if agentName !in ledger.agents {
      return Answered(AttachAgentNotFound(agentName));
    }
    var result := ledger.EnsureWallet(agentName, seedPoints, walletId, now, insert);
    match result {
      case Err(e) =>
        c := Answered(AttachThrew(Some(e)));
      case Ok(None) =>
        c := Answered(AttachThrew(None));
      case Ok(Some(w)) =>
        c := Answered(Attached(agentName, w.walletId, w.balanceMinor,
                               ToMajorUnits(NandaPoints, w.balanceMinor), AttachedMessage));
    }
  }
}
