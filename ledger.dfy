/** The wallet store and the transfer engine. The store holds one wallet per
    owner (the unique `agent_name` index of the wallets collection), and two
    append-only logs of transactions and receipts whose `txId`s are unique.
    Specification functions on `LedgerView` snapshots state what each
    operation does; the `Ledger` class performs the same steps in place and
    is proved to agree with them. */
module Ledger {
  import opened Wrappers
  import opened Points

  /** A wallet document as `ensureWallet` writes it: it carries no currency,
      scale or `agent_id` field. */
  datatype Wallet = Wallet(
    walletId: string,
    agentName: string,
    balanceMinor: int,
    createdAt: string,
    updatedAt: string)

  datatype TxStatus = Completed | Rejected

  datatype Txn = Txn(
    txId: string,
    fromAgent: string,
    toAgent: string,
    amountMinor: nat,
    currency: string,
    scale: nat,
    createdAt: string,
    status: TxStatus,
    error: Option<string>,
    task: Option<string>)

  datatype Receipt = Receipt(
    txId: string,
    issuedAt: string,
    fromAgent: string,
    toAgent: string,
    amountMinor: nat,
    fromBalanceAfter: int,
    toBalanceAfter: int)

  /** The registered agent names (read, never written, by the core), the
      wallets keyed by owner name, and the two logs in insertion order. */
  datatype LedgerView = LedgerView(
    agents: set<string>,
    wallets: map<string, Wallet>,
    transactions: seq<Txn>,
    receipts: seq<Receipt>)

  // ---------------------------------------------------------------------------
  // Invariants: what the unique indexes and the transfer engine maintain

  predicate WalletIdInUse(wallets: map<string, Wallet>, walletId: string) {
    exists name :: name in wallets && wallets[name].walletId == walletId
  }

  predicate WalletIdsDistinct(wallets: map<string, Wallet>) {
    forall a, b :: a in wallets && b in wallets && a != b ==> wallets[a].walletId != wallets[b].walletId
  }

  predicate TxIdsDistinct(txns: seq<Txn>) {
    forall i, j :: 0 <= i < j < |txns| ==> txns[i].txId != txns[j].txId
  }

  predicate ReceiptIdsDistinct(receipts: seq<Receipt>) {
    forall i, j :: 0 <= i < j < |receipts| ==> receipts[i].txId != receipts[j].txId
  }

  /** A transaction id not yet used in either log. */
  predicate FreshTxId(v: LedgerView, txId: string) {
    FreshIn(v.transactions, v.receipts, txId)
  }

  predicate FreshIn(txns: seq<Txn>, receipts: seq<Receipt>, txId: string) {
    (forall i :: 0 <= i < |txns| ==> txns[i].txId != txId)
    && (forall i :: 0 <= i < |receipts| ==> receipts[i].txId != txId)
  }

  /** Each wallet is filed under its owner's name and holds a non-negative
      balance; wallet ids are unique; the logs pair up one completed
      transaction with one receipt of the same id, amount and parties, and
      every receipt records non-negative balances. */
  predicate Consistent(v: LedgerView) {
    WalletsSound(v.wallets) && LogsSound(v.transactions, v.receipts)
  }

  predicate WalletsSound(wallets: map<string, Wallet>) {
    (forall name :: name in wallets ==> wallets[name].agentName == name && wallets[name].balanceMinor >= 0)
    && WalletIdsDistinct(wallets)
  }

  predicate LogsSound(txns: seq<Txn>, receipts: seq<Receipt>) {
    TxIdsDistinct(txns) && ReceiptIdsDistinct(receipts) && |txns| == |receipts|
    && (forall i :: 0 <= i < |txns| ==> Pairs(txns[i], receipts[i]))
  }

  predicate Pairs(tx: Txn, receipt: Receipt) {
    tx.txId == receipt.txId && tx.fromAgent == receipt.fromAgent && tx.toAgent == receipt.toAgent
    && tx.amountMinor == receipt.amountMinor && tx.status == Completed && tx.error == None
    && receipt.fromBalanceAfter >= 0 && receipt.toBalanceAfter >= 0
  }

  // ---------------------------------------------------------------------------
  // Reads

  /** `getWallet`: the wallet filed under the owner's name, if any. */
  function GetWallet(v: LedgerView, agentName: string): (w: Option<Wallet>)
    ensures w.Some? <==> agentName in v.wallets
    ensures w.Some? ==> w.value == v.wallets[agentName]
  {
    if agentName in v.wallets then Some(v.wallets[agentName]) else None
  }

  /** `getBalanceMinor`: the owner's balance, or 0 without a wallet. */
  function GetBalanceMinor(v: LedgerView, agentName: string): (b: int)
    ensures agentName in v.wallets ==> b == v.wallets[agentName].balanceMinor
    ensures agentName !in v.wallets ==> b == 0
  {
    match GetWallet(v, agentName)
    case Some(w) => w.balanceMinor
    case None => 0
  }

  /** In a consistent ledger a balance is never negative, and the wallet
      found for a name belongs to that name. */
  lemma ConsistentReads(v: LedgerView, agentName: string)
    requires Consistent(v)
    ensures GetBalanceMinor(v, agentName) >= 0
    ensures GetWallet(v, agentName).Some? ==> GetWallet(v, agentName).value.agentName == agentName
  {
  }

  /** `getAgentWithWallet`: the agent is registered and has a wallet. */
  function AgentWithWallet(v: LedgerView, agentName: string): (w: Option<Wallet>)
    ensures w.Some? <==> agentName in v.agents && agentName in v.wallets
    ensures w.Some? ==> w == GetWallet(v, agentName)
  {
    if agentName in v.agents then GetWallet(v, agentName) else None
  }

  /** `getReceiptByTx`: the first receipt carrying the id. */
  function ReceiptByTx(receipts: seq<Receipt>, txId: string): (r: Option<Receipt>)
    ensures r.Some? ==> r.value in receipts && r.value.txId == txId
    ensures r.None? <==> forall i :: 0 <= i < |receipts| ==> receipts[i].txId != txId
  {
    if receipts == [] then None
    else if receipts[0].txId == txId then Some(receipts[0])
    else ReceiptByTx(receipts[1..], txId)
  }

  /** Appending to the log never changes the receipt found for an id that
      is already there. */
  lemma {:induction false} ReceiptByTxStable(receipts: seq<Receipt>, more: seq<Receipt>, txId: string)
    requires ReceiptByTx(receipts, txId).Some?
    ensures ReceiptByTx(receipts + more, txId) == ReceiptByTx(receipts, txId)
  {
    if receipts[0].txId != txId {
      assert (receipts + more)[1..] == receipts[1..] + more;
      ReceiptByTxStable(receipts[1..], more, txId);
    }
  }

  /** A receipt appended under a fresh id is the one found for that id. */
  lemma {:induction false} ReceiptByTxAppended(receipts: seq<Receipt>, receipt: Receipt)
    requires forall i :: 0 <= i < |receipts| ==> receipts[i].txId != receipt.txId
    ensures ReceiptByTx(receipts + [receipt], receipt.txId) == Some(receipt)
  {
    if receipts != [] {
      assert (receipts + [receipt])[1..] == receipts[1..] + [receipt];
      assert receipts[0].txId != receipt.txId;
      ReceiptByTxAppended(receipts[1..], receipt);
    }
  }

  // ---------------------------------------------------------------------------
  // The sum of all balances

  ghost function Total(wallets: map<string, Wallet>): int
    decreases |wallets|
  {
    if wallets == map[] then 0
    else
      var name :| name in wallets;
      wallets[name].balanceMinor + Total(wallets - {name})
  }

  /** The total may be split at any wallet. */
  lemma {:induction false} TotalSplit(wallets: map<string, Wallet>, name: string)
    requires name in wallets
    ensures Total(wallets) == wallets[name].balanceMinor + Total(wallets - {name})
    decreases |wallets|
  {
    var picked :| picked in wallets && Total(wallets) == wallets[picked].balanceMinor + Total(wallets - {picked});
    if picked != name {
      var rest := wallets - {picked};
      assert name in rest;
      TotalSplit(rest, name);
      var others := wallets - {name};
      assert picked in others;
      TotalSplit(others, picked);
      assert rest - {name} == others - {picked};
    }
  }

  /** Replacing one wallet changes the total by the change of its balance. */
  lemma TotalUpdate(wallets: map<string, Wallet>, name: string, w: Wallet)
    requires name in wallets
    ensures Total(wallets[name := w]) == Total(wallets) - wallets[name].balanceMinor + w.balanceMinor
  {
    TotalSplit(wallets, name);
    TotalSplit(wallets[name := w], name);
    assert wallets[name := w] - {name} == wallets - {name};
  }

  // ---------------------------------------------------------------------------
  // ensureWallet

  /** `DEFAULT_SEED_POINTS`: the balance of a wallet created without a seed. */
  const DefaultSeedPoints: nat := 1000

  /** MongoDB's duplicate-key error code. */
  const DuplicateKey: int := 11000

  /** What the store does with `ensureWallet`'s insert: apply it under the
      unique indexes; find that a concurrent call has just filed a wallet for
      the same owner (so the insert hits the owner index); or fail with an
      error code of its own. */
  datatype InsertOutcome =
    | Attempted
    | Raced(winnerId: string, winnerBalance: nat, winnerCreatedAt: string)
    | InsertFailed(code: int)

  datatype WalletError = InvalidSeed(thrown: PointsError) | StoreError(code: int)

  /** The ledger after the call and what the call returns; a successful call
      may still return no wallet, as `wallet!` does not check. */
  datatype WalletOutcome = WalletOutcome(view: LedgerView, result: Result<Option<Wallet>, WalletError>)

  /** A wallet as a creation at time `now` files it. */
  function NewWallet(walletId: string, agentName: string, balanceMinor: nat, now: string): Wallet {
    Wallet(walletId, agentName, balanceMinor, now, now)
  }

  /** The store's side of `insertOne`: the wallets afterwards, and the error
      code it raises, if any. */
  function InsertWallet(wallets: map<string, Wallet>, w: Wallet, insert: InsertOutcome): (r: (map<string, Wallet>, Option<int>))
    ensures r.1 == None <==> insert.Attempted? && w.agentName !in wallets && !WalletIdInUse(wallets, w.walletId)
    ensures r.1 == None ==> r.0 == wallets[w.agentName := w]
    ensures r.0.Keys <= wallets.Keys + {w.agentName} && wallets.Keys <= r.0.Keys
    ensures forall name :: name in wallets && name != w.agentName ==> r.0[name] == wallets[name]
  {
    match insert
    case Attempted =>
      if w.agentName in wallets || WalletIdInUse(wallets, w.walletId) then (wallets, Some(DuplicateKey))
      else (wallets[w.agentName := w], None)
    case Raced(id, balance, at) =>
      (wallets[w.agentName := NewWallet(id, w.agentName, balance, at)], Some(DuplicateKey))
    case InsertFailed(code) => (wallets, Some(code))
  }

  /** `ensureWallet`: convert the seed (which may throw, even when the wallet
      exists), return an existing wallet, or insert a new one, swallow a
      duplicate-key error, and re-read the wallet by owner. */
  function EnsureWalletSpec(v: LedgerView, agentName: string, seedPoints: Option<real>,
                            walletId: string, now: string, insert: InsertOutcome): (o: WalletOutcome)
    ensures o.view.agents == v.agents && o.view.transactions == v.transactions && o.view.receipts == v.receipts
    ensures forall name :: name in v.wallets ==> name in o.view.wallets && o.view.wallets[name] == v.wallets[name]
    ensures o.view.wallets.Keys <= v.wallets.Keys + {agentName}
    ensures o.result.Ok? && o.result.value.Some? ==>
      agentName in o.view.wallets && o.result.value.value == o.view.wallets[agentName]
  {
    match SeedMinor(seedPoints)
    case Err(e) => WalletOutcome(v, Err(InvalidSeed(e)))
    case Ok(seedMinor) =>
      if agentName in v.wallets then WalletOutcome(v, Ok(Some(v.wallets[agentName])))
      else
        var (wallets, failure) := InsertWallet(v.wallets, NewWallet(walletId, agentName, seedMinor, now), insert);
        if failure.Some? && failure.value != DuplicateKey then WalletOutcome(v, Err(StoreError(failure.value)))
        else
          var after := v.(wallets := wallets);
          WalletOutcome(after, Ok(GetWallet(after, agentName)))
  }

  /** The seed `ensureWallet` converts: the given one, or 1000 points. */
  function SeedMinor(seedPoints: Option<real>): Result<nat, PointsError> {
    ToMinorUnits(NandaPoints, seedPoints.GetOr(DefaultSeedPoints as real))
  }

  /** A seed of -1 point or less makes `toMinorUnits` throw its RangeError,
      and it is thrown before the store is consulted, even when the owner
      already has a wallet; a fractional seed above that is truncated. */
  lemma EnsureWalletInvalidSeed(v: LedgerView, agentName: string, seedPoints: Option<real>,
                                walletId: string, now: string, insert: InsertOutcome)
    ensures SeedMinor(seedPoints).Err? <==> seedPoints.GetOr(DefaultSeedPoints as real) <= -1.0
    ensures SeedMinor(seedPoints).Err? ==>
      SeedMinor(seedPoints).error.Negative?
      && EnsureWalletSpec(v, agentName, seedPoints, walletId, now, insert)
         == WalletOutcome(v, Err(InvalidSeed(SeedMinor(seedPoints).error)))
  {
    assert Factor(NandaPoints) == 1;
  }

  /** An existing wallet is returned unchanged and the store is untouched. */
  lemma EnsureWalletExisting(v: LedgerView, agentName: string, seedPoints: Option<real>,
                             walletId: string, now: string, insert: InsertOutcome)
    requires agentName in v.wallets && SeedMinor(seedPoints).Ok?
    ensures EnsureWalletSpec(v, agentName, seedPoints, walletId, now, insert)
         == WalletOutcome(v, Ok(Some(v.wallets[agentName])))
  {
  }

  /** Without an existing wallet, an insert the indexes admit files a new
      wallet, seeded with `toMinorUnits(seedPoints ?? 1000)` and created and
      updated at the same instant; nothing else changes. */
  lemma EnsureWalletCreates(v: LedgerView, agentName: string, seedPoints: Option<real>,
                            walletId: string, now: string)
    requires agentName !in v.wallets && !WalletIdInUse(v.wallets, walletId)
    requires SeedMinor(seedPoints).Ok?
    ensures var o := EnsureWalletSpec(v, agentName, seedPoints, walletId, now, Attempted);
      var w := Wallet(walletId, agentName, SeedMinor(seedPoints).value, now, now);
      o.result == Ok(Some(w)) && o.view == v.(wallets := v.wallets[agentName := w])
      && w.createdAt == w.updatedAt
  {
  }

  /** With no seed, a new wallet holds 1000 points. */
  lemma EnsureWalletDefaultSeed()
    ensures SeedMinor(None) == Ok(DefaultSeedPoints)
  {
    NpToMinorUnitsOfWhole(DefaultSeedPoints);
  }

  /** A duplicate-key error is swallowed and the wallet re-read by owner:
      after a concurrent creation the caller gets the winner's wallet; after
      a clash of wallet ids there is no wallet to re-read. Any other error
      escapes and the store is unchanged. */
  lemma EnsureWalletInsertErrors(v: LedgerView, agentName: string, seedPoints: Option<real>,
                                 walletId: string, now: string, insert: InsertOutcome)
    requires agentName !in v.wallets && SeedMinor(seedPoints).Ok?
    ensures var o := EnsureWalletSpec(v, agentName, seedPoints, walletId, now, insert);
      && (insert.Raced? ==>
            o.result == Ok(Some(NewWallet(insert.winnerId, agentName, insert.winnerBalance, insert.winnerCreatedAt))))
      && (insert.Attempted? && WalletIdInUse(v.wallets, walletId) ==> o == WalletOutcome(v, Ok(None)))
      && (insert.InsertFailed? && insert.code != DuplicateKey ==> o == WalletOutcome(v, Err(StoreError(insert.code))))
      && (insert.InsertFailed? && insert.code == DuplicateKey ==> o == WalletOutcome(v, Ok(None)))
  {
  }

  /** After any successful call that returned a wallet, the owner has exactly
      that wallet, and a second call returns the same wallet (same id, same
      balance) without touching the store, whatever it is given. */
  lemma EnsureWalletIdempotent(v: LedgerView, agentName: string, seedPoints: Option<real>,
                               walletId: string, now: string, insert: InsertOutcome,
                               walletId2: string, now2: string, insert2: InsertOutcome)
    requires EnsureWalletSpec(v, agentName, seedPoints, walletId, now, insert).result.Ok?
    requires EnsureWalletSpec(v, agentName, seedPoints, walletId, now, insert).result.value.Some?
    ensures var first := EnsureWalletSpec(v, agentName, seedPoints, walletId, now, insert);
      var second := EnsureWalletSpec(first.view, agentName, seedPoints, walletId2, now2, insert2);
      agentName in first.view.wallets && first.result.value.value == first.view.wallets[agentName]
      && second == WalletOutcome(first.view, first.result)
  {
  }

  /** `ensureWallet` keeps the ledger consistent when the wallet ids it is
      given (its own and a concurrent winner's) are not in use. */
  lemma EnsureWalletPreservesConsistent(v: LedgerView, agentName: string, seedPoints: Option<real>,
                                        walletId: string, now: string, insert: InsertOutcome)
    requires Consistent(v)
    requires insert.Raced? ==> !WalletIdInUse(v.wallets, insert.winnerId)
    ensures Consistent(EnsureWalletSpec(v, agentName, seedPoints, walletId, now, insert).view)
  {
    if SeedMinor(seedPoints).Ok? && agentName !in v.wallets {
      var seedMinor := SeedMinor(seedPoints).value;
      match insert
      case Attempted =>
        if !WalletIdInUse(v.wallets, walletId) {
          AddWalletSound(v.wallets, NewWallet(walletId, agentName, seedMinor, now));
        }
      case Raced(id, balance, at) =>
        AddWalletSound(v.wallets, NewWallet(id, agentName, balance, at));
      case InsertFailed(_) =>
    }
  }

  lemma AddWalletSound(wallets: map<string, Wallet>, w: Wallet)
    requires WalletsSound(wallets) && w.agentName !in wallets && !WalletIdInUse(wallets, w.walletId)
    requires w.balanceMinor >= 0
    ensures WalletsSound(wallets[w.agentName := w])
  {
    var m := wallets[w.agentName := w];
    forall a, b | a in m && b in m && a != b
      ensures m[a].walletId != m[b].walletId
    {
      if a == w.agentName {
        assert b in wallets;
      } else if b == w.agentName {
        assert a in wallets;
      }
    }
  }

  // ---------------------------------------------------------------------------
  // transfer

  datatype TransferError =
    | SenderWalletNotFound
    | ReceiverWalletNotFound
    | InsufficientFunds
    | FailedToUpdateSenderWallet
    | FailedToUpdateReceiverWallet

  /** The message of the error `transfer` throws. */
  function ErrorMessage(e: TransferError): string {
    match e
    case SenderWalletNotFound => "SENDER_WALLET_NOT_FOUND"
    case ReceiverWalletNotFound => "RECEIVER_WALLET_NOT_FOUND"
    case InsufficientFunds => "INSUFFICIENT_FUNDS"
    case FailedToUpdateSenderWallet => "FAILED_TO_UPDATE_SENDER_WALLET"
    case FailedToUpdateReceiverWallet => "FAILED_TO_UPDATE_RECEIVER_WALLET"
  }

  /** The store's answer to the two `findOneAndUpdate` calls: in a sequential
      run both find their wallet; a wallet removed between the check and the
      update makes the update return nothing. */
  datatype UpdateFault = NoFault | SenderUpdateFails | ReceiverUpdateFails

  /** The instants `transfer` reads from the clock: at the start, at the
      debit, at the credit and when the receipt is issued. */
  datatype TransferClock = TransferClock(createdAt: string, debitedAt: string, creditedAt: string, issuedAt: string)

  datatype TransferResult = TransferResult(tx: Txn, receipt: Receipt, payload: Receipt)

  datatype TransferOutcome = TransferOutcome(view: LedgerView, result: Result<TransferResult, TransferError>)

  /** `$inc` of one balance by `delta`, with the update time set. */
  function Adjust(wallets: map<string, Wallet>, agentName: string, delta: int, at: string): (m: map<string, Wallet>)
    requires agentName in wallets
    ensures agentName in m && m.Keys == wallets.Keys
    ensures m[agentName] == wallets[agentName].(balanceMinor := wallets[agentName].balanceMinor + delta, updatedAt := at)
    ensures forall other :: other in wallets && other != agentName ==> m[other] == wallets[other]
  {
    var w := wallets[agentName];
    wallets[agentName := w.(balanceMinor := w.balanceMinor + delta, updatedAt := at)]
  }

  /** `transfer` keyed on owner names: check both wallets and the funds (in
      that order), debit the sender, credit the receiver, then log one
      completed transaction and its receipt under the fresh id. */
  function TransferSpec(v: LedgerView, fromAgent: string, toAgent: string, amountMinor: nat,
                        task: Option<string>, txId: string, clock: TransferClock, fault: UpdateFault): (o: TransferOutcome)
    ensures o.view.agents == v.agents && o.view.wallets.Keys == v.wallets.Keys
    ensures o.result.Ok? ==>
      o.result.value.tx.txId == txId && o.result.value.receipt.txId == txId
      && o.view.transactions == v.transactions + [o.result.value.tx]
      && o.view.receipts == v.receipts + [o.result.value.receipt]
    ensures o.result.Err? ==> o.view.transactions == v.transactions && o.view.receipts == v.receipts
  {
    if fromAgent !in v.wallets then TransferOutcome(v, Err(SenderWalletNotFound))
    else if toAgent !in v.wallets then TransferOutcome(v, Err(ReceiverWalletNotFound))
    else if v.wallets[fromAgent].balanceMinor < amountMinor then TransferOutcome(v, Err(InsufficientFunds))
    else if fault == SenderUpdateFails then TransferOutcome(v, Err(FailedToUpdateSenderWallet))
    else
      var debited := Adjust(v.wallets, fromAgent, -(amountMinor as int), clock.debitedAt);
      if fault == ReceiverUpdateFails then TransferOutcome(v.(wallets := debited), Err(FailedToUpdateReceiverWallet))
      else
        var credited := Adjust(debited, toAgent, amountMinor, clock.creditedAt);
        var tx := Txn(txId, fromAgent, toAgent, amountMinor, "NP", 0, clock.createdAt, Completed, None, task);
        var receipt := Receipt(txId, clock.issuedAt, fromAgent, toAgent, amountMinor,
                               debited[fromAgent].balanceMinor, credited[toAgent].balanceMinor);
        TransferOutcome(LedgerView(v.agents, credited, v.transactions + [tx], v.receipts + [receipt]),
                        Ok(TransferResult(tx, receipt, receipt)))
  }

  /** The three checks raise in the order sender, receiver, funds, and a
      failed check, like a failed debit, leaves the ledger untouched. */
  lemma TransferChecks(v: LedgerView, fromAgent: string, toAgent: string, amountMinor: nat,
                       task: Option<string>, txId: string, clock: TransferClock, fault: UpdateFault)
    ensures var o := TransferSpec(v, fromAgent, toAgent, amountMinor, task, txId, clock, fault);
      && (o.result == Err(SenderWalletNotFound) <==> fromAgent !in v.wallets)
      && (o.result == Err(ReceiverWalletNotFound) <==> fromAgent in v.wallets && toAgent !in v.wallets)
      && (o.result == Err(InsufficientFunds) <==>
            fromAgent in v.wallets && toAgent in v.wallets && v.wallets[fromAgent].balanceMinor < amountMinor)
      && (o.result.Err? && o.result.error != FailedToUpdateReceiverWallet ==> o.view == v)
      && (o.result.Ok? <==>
            fromAgent in v.wallets && toAgent in v.wallets && v.wallets[fromAgent].balanceMinor >= amountMinor
            && fault == NoFault)
  {
  }

  /** A successful transfer between two parties moves exactly `amountMinor`
      from the sender to the receiver, leaves every other wallet alone, and
      appends exactly one completed transaction and one receipt sharing the
      fresh id; the receipt records both balances after the update, and the
      payload is the receipt. */
  lemma TransferSucceeds(v: LedgerView, fromAgent: string, toAgent: string, amountMinor: nat,
                         task: Option<string>, txId: string, clock: TransferClock)
    requires fromAgent in v.wallets && toAgent in v.wallets && fromAgent != toAgent
    requires v.wallets[fromAgent].balanceMinor >= amountMinor
    ensures var o := TransferSpec(v, fromAgent, toAgent, amountMinor, task, txId, clock, NoFault);
      && o.result.Ok?
      && o.view.agents == v.agents && o.view.wallets.Keys == v.wallets.Keys
      && o.view.wallets[fromAgent].balanceMinor == v.wallets[fromAgent].balanceMinor - amountMinor
      && o.view.wallets[toAgent].balanceMinor == v.wallets[toAgent].balanceMinor + amountMinor
      && o.view.wallets[fromAgent].balanceMinor + o.view.wallets[toAgent].balanceMinor
         == v.wallets[fromAgent].balanceMinor + v.wallets[toAgent].balanceMinor
      && (forall other :: other in v.wallets && other != fromAgent && other != toAgent ==>
            o.view.wallets[other] == v.wallets[other])
      && o.view.transactions == v.transactions + [o.result.value.tx]
      && o.view.receipts == v.receipts + [o.result.value.receipt]
      && o.result.value.tx.txId == txId && o.result.value.receipt.txId == txId
      && o.result.value.tx.status == Completed && o.result.value.tx.error == None
      && o.result.value.tx.task == task && o.result.value.tx.amountMinor == amountMinor
      && o.result.value.receipt.fromBalanceAfter == o.view.wallets[fromAgent].balanceMinor
      && o.result.value.receipt.toBalanceAfter == o.view.wallets[toAgent].balanceMinor
      && o.result.value.payload == o.result.value.receipt
  {
  }

  /** The receipt of a successful transfer names the transaction, both
      parties and the amount moved. */
  lemma TransferReceiptNamesPayment(v: LedgerView, fromAgent: string, toAgent: string, amountMinor: nat,
                                    task: Option<string>, txId: string, clock: TransferClock)
    requires fromAgent in v.wallets && toAgent in v.wallets
    requires v.wallets[fromAgent].balanceMinor >= amountMinor
    ensures var o := TransferSpec(v, fromAgent, toAgent, amountMinor, task, txId, clock, NoFault);
      && o.result.Ok?
      && o.result.value.receipt.txId == txId && o.result.value.receipt.issuedAt == clock.issuedAt
      && o.result.value.receipt.fromAgent == fromAgent && o.result.value.receipt.toAgent == toAgent
      && o.result.value.receipt.amountMinor == amountMinor
  {
  }

  /** A transfer to oneself debits and credits the same wallet: the balance
      is unchanged, but the receipt's sender balance is the one read between
      the two updates. */
  lemma TransferToSelf(v: LedgerView, agentName: string, amountMinor: nat,
                       task: Option<string>, txId: string, clock: TransferClock)
    requires agentName in v.wallets && v.wallets[agentName].balanceMinor >= amountMinor
    ensures var o := TransferSpec(v, agentName, agentName, amountMinor, task, txId, clock, NoFault);
      && o.result.Ok?
      && o.view.wallets[agentName].balanceMinor == v.wallets[agentName].balanceMinor
      && o.result.value.receipt.fromBalanceAfter == v.wallets[agentName].balanceMinor - amountMinor
      && o.result.value.receipt.toBalanceAfter == v.wallets[agentName].balanceMinor
  {
  }

  /** A failed credit raises FAILED_TO_UPDATE_RECEIVER_WALLET after the debit:
      the sender stays debited, nothing else changes and nothing is logged. */
  lemma TransferReceiverFault(v: LedgerView, fromAgent: string, toAgent: string, amountMinor: nat,
                              task: Option<string>, txId: string, clock: TransferClock)
    requires fromAgent in v.wallets && toAgent in v.wallets
    requires v.wallets[fromAgent].balanceMinor >= amountMinor
    ensures var o := TransferSpec(v, fromAgent, toAgent, amountMinor, task, txId, clock, ReceiverUpdateFails);
      && o.result == Err(FailedToUpdateReceiverWallet)
      && o.view.wallets[fromAgent].balanceMinor == v.wallets[fromAgent].balanceMinor - amountMinor
      && (forall other :: other in v.wallets && other != fromAgent ==> o.view.wallets[other] == v.wallets[other])
      && o.view.transactions == v.transactions && o.view.receipts == v.receipts
  {
  }

  /** Points are conserved by a successful transfer, and a failed credit
      destroys exactly the amount debited. */
  lemma TransferConserves(v: LedgerView, fromAgent: string, toAgent: string, amountMinor: nat,
                          task: Option<string>, txId: string, clock: TransferClock, fault: UpdateFault)
    ensures var o := TransferSpec(v, fromAgent, toAgent, amountMinor, task, txId, clock, fault);
      && (o.result.Ok? ==> Total(o.view.wallets) == Total(v.wallets))
      && (o.result == Err(FailedToUpdateReceiverWallet) ==> Total(o.view.wallets) == Total(v.wallets) - amountMinor)
      && (o.result.Err? && o.result.error != FailedToUpdateReceiverWallet ==> Total(o.view.wallets) == Total(v.wallets))
  {
    if fromAgent in v.wallets && toAgent in v.wallets && v.wallets[fromAgent].balanceMinor >= amountMinor
       && fault != SenderUpdateFails {
      var debited := Adjust(v.wallets, fromAgent, -(amountMinor as int), clock.debitedAt);
      TotalUpdate(v.wallets, fromAgent, debited[fromAgent]);
      assert debited == v.wallets[fromAgent := debited[fromAgent]];
      if fault != ReceiverUpdateFails {
        var credited := Adjust(debited, toAgent, amountMinor, clock.creditedAt);
        TotalUpdate(debited, toAgent, credited[toAgent]);
        assert credited == debited[toAgent := credited[toAgent]];
      }
    }
  }

  /** A transfer under a fresh id keeps the ledger consistent: no balance goes
      below zero, because the funds are checked before the debit. */
  lemma TransferPreservesConsistent(v: LedgerView, fromAgent: string, toAgent: string, amountMinor: nat,
                                    task: Option<string>, txId: string, clock: TransferClock, fault: UpdateFault)
    requires Consistent(v) && FreshTxId(v, txId)
    ensures Consistent(TransferSpec(v, fromAgent, toAgent, amountMinor, task, txId, clock, fault).view)
  {
    if fromAgent !in v.wallets || toAgent !in v.wallets || v.wallets[fromAgent].balanceMinor < amountMinor
       || fault == SenderUpdateFails {
      TransferChecks(v, fromAgent, toAgent, amountMinor, task, txId, clock, fault);
    } else if fault == ReceiverUpdateFails {
      DebitedConsistent(v, fromAgent, toAgent, amountMinor, task, txId, clock);
    } else {
      CompletedConsistent(v, fromAgent, toAgent, amountMinor, task, txId, clock);
    }
  }

  lemma DebitedConsistent(v: LedgerView, fromAgent: string, toAgent: string, amountMinor: nat,
                          task: Option<string>, txId: string, clock: TransferClock)
    requires Consistent(v) && fromAgent in v.wallets && toAgent in v.wallets
    requires v.wallets[fromAgent].balanceMinor >= amountMinor
    ensures Consistent(TransferSpec(v, fromAgent, toAgent, amountMinor, task, txId, clock, ReceiverUpdateFails).view)
  {
    AdjustSound(v.wallets, fromAgent, -(amountMinor as int), clock.debitedAt);
    DebitedView(v, fromAgent, toAgent, amountMinor, task, txId, clock);
  }

  lemma CompletedConsistent(v: LedgerView, fromAgent: string, toAgent: string, amountMinor: nat,
                            task: Option<string>, txId: string, clock: TransferClock)
    requires Consistent(v) && FreshTxId(v, txId) && fromAgent in v.wallets && toAgent in v.wallets
    requires v.wallets[fromAgent].balanceMinor >= amountMinor
    ensures Consistent(TransferSpec(v, fromAgent, toAgent, amountMinor, task, txId, clock, NoFault).view)
  {
    var debited := Adjust(v.wallets, fromAgent, -(amountMinor as int), clock.debitedAt);
    AdjustSound(v.wallets, fromAgent, -(amountMinor as int), clock.debitedAt);
    var credited := Adjust(debited, toAgent, amountMinor, clock.creditedAt);
    AdjustSound(debited, toAgent, amountMinor, clock.creditedAt);
    var tx := Txn(txId, fromAgent, toAgent, amountMinor, "NP", 0, clock.createdAt, Completed, None, task);
    var receipt := Receipt(txId, clock.issuedAt, fromAgent, toAgent, amountMinor,
                           debited[fromAgent].balanceMinor, credited[toAgent].balanceMinor);
    AppendSound(v.transactions, v.receipts, tx, receipt);
    CompletedView(v, fromAgent, toAgent, amountMinor, task, txId, clock);
  }

  /** The ledger a failed credit leaves: the sender debited, nothing else. */
  lemma DebitedView(v: LedgerView, fromAgent: string, toAgent: string, amountMinor: nat,
                    task: Option<string>, txId: string, clock: TransferClock)
    requires fromAgent in v.wallets && toAgent in v.wallets && v.wallets[fromAgent].balanceMinor >= amountMinor
    ensures TransferSpec(v, fromAgent, toAgent, amountMinor, task, txId, clock, ReceiverUpdateFails).view
         == v.(wallets := Adjust(v.wallets, fromAgent, -(amountMinor as int), clock.debitedAt))
  {
  }

  /** The ledger a completed transfer leaves: both wallets updated and one
      entry appended to each log. */
  lemma CompletedView(v: LedgerView, fromAgent: string, toAgent: string, amountMinor: nat,
                      task: Option<string>, txId: string, clock: TransferClock)
    requires fromAgent in v.wallets && toAgent in v.wallets && v.wallets[fromAgent].balanceMinor >= amountMinor
    ensures var debited := Adjust(v.wallets, fromAgent, -(amountMinor as int), clock.debitedAt);
      var credited := Adjust(debited, toAgent, amountMinor, clock.creditedAt);
      TransferSpec(v, fromAgent, toAgent, amountMinor, task, txId, clock, NoFault).view
      == LedgerView(v.agents, credited,
                    v.transactions + [Txn(txId, fromAgent, toAgent, amountMinor, "NP", 0, clock.createdAt, Completed, None, task)],
                    v.receipts + [Receipt(txId, clock.issuedAt, fromAgent, toAgent, amountMinor,
                                          debited[fromAgent].balanceMinor, credited[toAgent].balanceMinor)])
  {
  }

  lemma AdjustSound(wallets: map<string, Wallet>, agentName: string, delta: int, at: string)
    requires WalletsSound(wallets) && agentName in wallets && wallets[agentName].balanceMinor + delta >= 0
    ensures WalletsSound(Adjust(wallets, agentName, delta, at))
  {
  }

  lemma AppendSound(txns: seq<Txn>, receipts: seq<Receipt>, tx: Txn, receipt: Receipt)
    requires LogsSound(txns, receipts) && FreshIn(txns, receipts, tx.txId) && Pairs(tx, receipt)
    ensures LogsSound(txns + [tx], receipts + [receipt])
  {
  }

  // ---------------------------------------------------------------------------
  // The ledger only grows

  /** `w` is `v` after further operations: the same agents, every wallet
      owner still there, and both logs extended at the end. */
  predicate Extends(v: LedgerView, w: LedgerView) {
    w.agents == v.agents && v.wallets.Keys <= w.wallets.Keys
    && |v.transactions| <= |w.transactions| && w.transactions[..|v.transactions|] == v.transactions
    && |v.receipts| <= |w.receipts| && w.receipts[..|v.receipts|] == v.receipts
  }

  lemma ExtendsTransitive(u: LedgerView, v: LedgerView, w: LedgerView)
    requires Extends(u, v) && Extends(v, w)
    ensures Extends(u, w)
  {
    assert w.transactions[..|u.transactions|] == w.transactions[..|v.transactions|][..|u.transactions|];
    assert w.receipts[..|u.receipts|] == w.receipts[..|v.receipts|][..|u.receipts|];
  }

  /** Neither `ensureWallet` nor `transfer` removes a wallet or rewrites the
      logs. */
  lemma OperationsExtend(v: LedgerView, agentName: string, seedPoints: Option<real>, walletId: string,
                         now: string, insert: InsertOutcome, fromAgent: string, toAgent: string,
                         amountMinor: nat, task: Option<string>, txId: string, clock: TransferClock,
                         fault: UpdateFault)
    ensures Extends(v, EnsureWalletSpec(v, agentName, seedPoints, walletId, now, insert).view)
    ensures Extends(v, TransferSpec(v, fromAgent, toAgent, amountMinor, task, txId, clock, fault).view)
  {
    TransferExtends(v, fromAgent, toAgent, amountMinor, task, txId, clock, fault);
  }

  lemma TransferExtends(v: LedgerView, fromAgent: string, toAgent: string, amountMinor: nat,
                        task: Option<string>, txId: string, clock: TransferClock, fault: UpdateFault)
    ensures Extends(v, TransferSpec(v, fromAgent, toAgent, amountMinor, task, txId, clock, fault).view)
  {
    if fromAgent !in v.wallets || toAgent !in v.wallets || v.wallets[fromAgent].balanceMinor < amountMinor
       || fault == SenderUpdateFails {
      TransferChecks(v, fromAgent, toAgent, amountMinor, task, txId, clock, fault);
    } else if fault == ReceiverUpdateFails {
      DebitedView(v, fromAgent, toAgent, amountMinor, task, txId, clock);
    } else {
      CompletedView(v, fromAgent, toAgent, amountMinor, task, txId, clock);
      var w := TransferSpec(v, fromAgent, toAgent, amountMinor, task, txId, clock, fault).view;
      assert w.transactions[..|v.transactions|] == v.transactions;
      assert w.receipts[..|v.receipts|] == v.receipts;
    }
  }

  // ---------------------------------------------------------------------------
  // transfer as written: wallets looked up by `agent_id`

  /** The string a wallet document holds under a field name, if it has the
      field: the documents `ensureWallet` writes have no `agent_id`. */
  function WalletField(w: Wallet, field: string): Option<string> {
    if field == "walletId" then Some(w.walletId)
    else if field == "agent_name" then Some(w.agentName)
    else if field == "createdAt" then Some(w.createdAt)
    else if field == "updatedAt" then Some(w.updatedAt)
    else None
  }

  /** `findOne({ [field]: value })` finds a document: one holds exactly that
      string under that field (an equality filter never matches a
      document that lacks the field). */
  predicate AnyWalletMatches(wallets: map<string, Wallet>, field: string, value: string) {
    exists name :: name in wallets && WalletField(wallets[name], field) == Some(value)
  }

  /** The lookup by owner name finds exactly the owners with a wallet. */
  lemma AgentNameLookup(v: LedgerView, agentName: string)
    requires Consistent(v)
    ensures AnyWalletMatches(v.wallets, "agent_name", agentName) <==> agentName in v.wallets
  {
    if agentName in v.wallets {
      assert WalletField(v.wallets[agentName], "agent_name") == Some(agentName);
    }
  }

  /** `transfer` as written: both wallets are looked up with the filter
      `{ agent_id: ... }`; past the lookups it proceeds as `TransferSpec`. */
  function TransferAsWritten(v: LedgerView, fromAgent: string, toAgent: string, amountMinor: nat,
                             task: Option<string>, txId: string, clock: TransferClock, fault: UpdateFault): (o: TransferOutcome)
    ensures o.result.Ok? ==>
      AnyWalletMatches(v.wallets, "agent_id", fromAgent) && AnyWalletMatches(v.wallets, "agent_id", toAgent)
    ensures o.result.Ok? ==> o == TransferSpec(v, fromAgent, toAgent, amountMinor, task, txId, clock, fault)
  {
    if !AnyWalletMatches(v.wallets, "agent_id", fromAgent) then TransferOutcome(v, Err(SenderWalletNotFound))
    else if !AnyWalletMatches(v.wallets, "agent_id", toAgent) then TransferOutcome(v, Err(ReceiverWalletNotFound))
    else TransferSpec(v, fromAgent, toAgent, amountMinor, task, txId, clock, fault)
  }

  /** As written, no transfer can succeed: whatever the wallets and balances,
      the sender lookup finds nothing and SENDER_WALLET_NOT_FOUND is thrown. */
  lemma TransferAsWrittenAlwaysFails(v: LedgerView, fromAgent: string, toAgent: string, amountMinor: nat,
                                     task: Option<string>, txId: string, clock: TransferClock, fault: UpdateFault)
    ensures TransferAsWritten(v, fromAgent, toAgent, amountMinor, task, txId, clock, fault)
         == TransferOutcome(v, Err(SenderWalletNotFound))
  {
    forall name | name in v.wallets
      ensures WalletField(v.wallets[name], "agent_id") == None
    {
    }
  }

  // ---------------------------------------------------------------------------
  // The ledger in place

  class Ledger {
    const agents: set<string>
    var wallets: map<string, Wallet>
    var transactions: seq<Txn>
    var receipts: seq<Receipt>

    function View(): LedgerView
      reads this
    {
      LedgerView(agents, wallets, transactions, receipts)
    }

    ghost predicate Valid()
      reads this
    {
      Consistent(View())
    }

    /** A ledger over the registered agents, with no wallets and empty logs. */
    constructor (registered: set<string>)
      ensures Valid()
      ensures View() == LedgerView(registered, map[], [], [])
    {
      agents := registered;
      wallets := map[];
      transactions := [];
      receipts := [];
    }

    /** `Wallets.insertOne` under the unique indexes. */
    method InsertOne(w: Wallet, insert: InsertOutcome) returns (failure: Option<int>)
      modifies this
      ensures (wallets, failure) == InsertWallet(old(wallets), w, insert)
      ensures transactions == old(transactions) && receipts == old(receipts)
    {
      var stored := InsertWallet(wallets, w, insert);
      wallets, failure := stored.0, stored.1;
    }

    /** `ensureWallet`, step by step: convert the seed, look the owner up,
        insert when absent, swallow a duplicate key, re-read. */
    method EnsureWallet(agentName: string, seedPoints: Option<real>, walletId: string, now: string,
                        insert: InsertOutcome) returns (r: Result<Option<Wallet>, WalletError>)
      modifies this
      requires Valid()
      requires insert.Raced? ==> !WalletIdInUse(wallets, insert.winnerId)
      ensures Valid()
      ensures WalletOutcome(View(), r) == EnsureWalletSpec(old(View()), agentName, seedPoints, walletId, now, insert)
    {
      ghost var v0 := View();
      var seed := SeedMinor(seedPoints);
      if seed.Err? {
        return Err(InvalidSeed(seed.error));
      }
      var wallet := GetWallet(View(), agentName);
      if wallet.None? {
        var failure := InsertOne(NewWallet(walletId, agentName, seed.value, now), insert);
        if failure.Some? && failure.value != DuplicateKey {
          return Err(StoreError(failure.value));
        }
        wallet := GetWallet(View(), agentName);
      }
      r := Ok(wallet);
      EnsureWalletPreservesConsistent(v0, agentName, seedPoints, walletId, now, insert);
    }

    /** `transfer`, step by step, on wallets keyed by owner name. */
    method Transfer(fromAgent: string, toAgent: string, amountMinor: nat, task: Option<string>,
                    txId: string, clock: TransferClock, fault: UpdateFault)
      returns (r: Result<TransferResult, TransferError>)
      modifies this
      requires Valid() && FreshTxId(View(), txId)
      ensures Valid()
      ensures TransferOutcome(View(), r)
           == TransferSpec(old(View()), fromAgent, toAgent, amountMinor, task, txId, clock, fault)
    {
      ghost var v0 := View();
      TransferPreservesConsistent(v0, fromAgent, toAgent, amountMinor, task, txId, clock, fault);
      var fromWallet := GetWallet(View(), fromAgent);
      var toWallet := GetWallet(View(), toAgent);
      if fromWallet.None? {
        return Err(SenderWalletNotFound);
      }
      if toWallet.None? {
        return Err(ReceiverWalletNotFound);
      }
      if fromWallet.value.balanceMinor < amountMinor {
        return Err(InsufficientFunds);
      }

      if fault == SenderUpdateFails {
        return Err(FailedToUpdateSenderWallet);
      }
      wallets := Adjust(wallets, fromAgent, -(amountMinor as int), clock.debitedAt);
      var updatedFromWallet := wallets[fromAgent];

      if fault == ReceiverUpdateFails {
        return Err(FailedToUpdateReceiverWallet);
      }
      wallets := Adjust(wallets, toAgent, amountMinor, clock.creditedAt);
      var updatedToWallet := wallets[toAgent];

      var tx := Txn(txId, fromAgent, toAgent, amountMinor, "NP", 0, clock.createdAt, Completed, None, task);
      transactions := transactions + [tx];

      var receipt := Receipt(txId, clock.issuedAt, fromAgent, toAgent, amountMinor,
                             updatedFromWallet.balanceMinor, updatedToWallet.balanceMinor);
      receipts := receipts + [receipt];

      r := Ok(TransferResult(tx, receipt, receipt));
    }
  }
}
