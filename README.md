# NANDA Points ledger and x402-NP payment gate, modelled in Dafny

NANDA Points (NP) is a points ledger for AI agents. It runs behind MCP tools and a REST interface.

- Each registered agent has one wallet, keyed by the agent's name. The wallet holds a balance in integer minor units. For NP the scale is 0, so one minor unit is one point.
- `ensureWallet` creates a wallet lazily, seeded with 1000 points by default.
- `transfer` checks the sender, the receiver and the funds, in that order. It then debits the sender, credits the receiver, and files one transaction record and one receipt under a fresh id.
- Tools can be gated behind a payment (the x402-NP protocol). The caller first pays the tool's price with `initiateTransaction`. It then retries the tool with the payer, the transaction id and the amount. The gate checks these against the stored receipt.
- The SDKs have paywalls of their own for Express (TypeScript) and for Flask and FastAPI (Python). These make the same kind of check through the REST interface.

The project has nine modules:

| file | module | what it models |
|---|---|---|
| `wrappers.dfy` | `Wrappers` | `Option` and `Result` |
| `text.dfy` | `Text` | the JavaScript string and number built-ins the core relies on: decimal rendering of whole numbers, `trim`, first-occurrence `replace`, `toLowerCase` on ASCII, and `parseFloat` on decimal input |
| `points.dfy` | `Points` | `src/models/points.ts`: the NP definition, minor and major unit conversions, `format`, `validate`, `parse`, and the points registry |
| `ledger.dfy` | `Ledger` | `src/services/walletService.ts` and `src/services/transactionService.ts`, the lookups of `src/routes/agentRoutes.ts` and `src/services/receiptService.ts`, and the unique indexes of `src/services/database.ts` |
| `gate.dfy` | `PaymentGate` | `src/middleware/x402-mcp.ts` |
| `mcp_server.dfy` | `McpServer` | the tools of `src/mcp/server.ts` |
| `combined_server.dfy` | `CombinedServer` | the tools of `src/combined-server.ts` that differ from the MCP server's |
| `sdk_paywall.dfy` | `SdkPaywall` | `sdk/typescript/src/paywall.ts` |
| `python_paywall.dfy` | `PythonPaywall` | `sdk/python/src/nanda_points_sdk/paywall.py` |

How the model is built:

- **The store is a class.** It is `Ledger.Ledger`, with the registered agents, a `map` of wallets keyed by agent name, and the transaction and receipt logs. Its methods `EnsureWallet` and `Transfer` update it step by step. Each method ensures that the new state and its answer equal a specification function of the old state (`EnsureWalletSpec`, `TransferSpec`). Each also keeps the invariant `Valid()`. The lemmas about those functions carry the properties.
- **Numbers.** JavaScript numbers are modelled as exact `real`s, and `NaN` as `None`. Minor units are `nat`, and prices are whole points.
- **Environment inputs are parameters.** Fresh UUIDs and timestamps are parameters; a fresh transaction id is a precondition. The outcome of a racing wallet insert, the failure of a wallet update, and the answer of an SDK's REST lookup are parameters too.
- **Results are values.** What the source returns as JSON text is modelled as datatype values. What it throws is an `Err` result.
- **Instruction lines are structured.** The steps of the MCP gate's Payment Required answer and of `getPaymentInfo` are datatype values. The functions `PaymentGate.StepText` and `McpServer.InfoStepText` give their exact wording, so the proofs never unfold the long text.

Where the code and its design description differ, the model follows the code:

- `transfer` itself does not reject a zero amount. Only the tools' input schemas demand a positive amount.
- The receipt check in `verifyPayment` compares the claimed amount in major units, not in minor units.
- `transfer` looks wallets up by `agent_id`, not by owner name. This is recorded under Findings. The rest of the model uses the owner name, as the design intends.

The published payment instructions and the MCP gate disagree as written. `getPaymentInfo` tells callers to send the payment in `X-PAYMENT-*` headers. The gate reads it from the `_paymentAgent`, `_paymentTxId` and `_paymentAmount` tool arguments instead, and its own Payment Required answer names those arguments (`McpServer.PaymentInfoNamesNoGateArgument`).

## Model

| member | source | states |
|---|---|---|
| Text.NatToString | src/models/points.ts:111 | `Number.prototype.toString` of a whole number: non-empty, all digits, and a leading `0` only for zero |
| Text.DigitsValueOfNatToString | src/models/points.ts:111 | the decimal rendering denotes the number it renders |
| Text.NatToStringInjective | src/models/points.ts:111 | distinct numbers render differently |
| Text.TrimStart | src/models/points.ts:134 | removes exactly the leading whitespace: the rest is a suffix that starts with a non-space |
| Text.TrimEnd | src/models/points.ts:134 | removes exactly the trailing whitespace |
| Text.Trim | src/models/points.ts:134 | `trim` never lengthens the text, and what it leaves is empty or starts and ends with a non-space |
| Text.TrimCuts | src/models/points.ts:134 | `trim` cuts out one contiguous piece of the text with only whitespace before and after it |
| Text.IndexOfFrom | src/models/points.ts:134 | the first index at or after `k` where the pattern occurs, and no earlier one |
| Text.IndexOfFirst | src/models/points.ts:134 | an occurrence at `i` with none before it is what `indexOf` finds |
| Text.IndexOf | src/models/points.ts:134 | `indexOf` finds an occurrence of the pattern, and none before it; when it finds nothing, the pattern occurs nowhere |
| Text.RemoveFirst | src/models/points.ts:134 | `replace` with a string pattern cuts out its first occurrence only, and leaves the text alone when it does not occur |
| Text.ToLower | sdk/typescript/src/paywall.ts:55 | `toLowerCase` keeps the length and lower-cases letter by letter |
| Text.SpanDigits | src/models/points.ts:135 | the length of the longest run of leading digits |
| Text.ParseUnsigned | src/models/points.ts:135 | an unsigned number is read exactly when the text starts with a digit, or a point and a digit; what is read is non-negative |
| Text.ParseFloat | src/models/points.ts:135-137 | after leading whitespace and an optional sign, `parseFloat` reads a number exactly when a numeral follows; the result is at most zero after a minus and at least zero otherwise |
| Text.SpanDigitsOfNumeral | src/models/points.ts:135 | a numeral followed by a non-digit spans exactly the numeral |
| Text.ParseUnsignedOfWhole | src/models/points.ts:135 | an unsigned decimal numeral parses to its value |
| Text.ParseUnsignedOfNumeral | src/models/points.ts:135 | `parseFloat` ignores text after the numeral that cannot continue a number |
| Text.TrimStartOfDigit | src/models/points.ts:135 | text that starts with a digit has no leading whitespace to skip |
| Text.ParseFloatOfUnsigned | src/models/points.ts:135 | without a sign, `parseFloat` reads the unsigned number |
| Text.ParseFloatOfNumeral | src/models/points.ts:135 | a rendered natural followed by non-numeric text parses to that natural |
| Text.ParseFloatOfNatToString | src/models/points.ts:135 | `parseFloat(String(n)) == n` |
| Text.ParseFloatNaN | src/models/points.ts:135-137 | text that does not start with a number parses to `NaN` |
| Points.Trunc | src/models/points.ts:100 | `Math.trunc` rounds toward zero, to within 1 of its argument |
| Points.CreateMinorUnits | src/models/points.ts:13-21 | accepts exactly the non-negative integers; a non-integer is reported before a negative |
| Points.ToMinorUnits | src/models/points.ts:98-101 | the truncation of `major * 10^scale`; it succeeds exactly when that product exceeds -1, and otherwise fails as negative |
| Points.ToMajorUnits | src/models/points.ts:103-106 | the inverse scaling: `major * 10^scale == minor`, non-negative for non-negative minor |
| Points.ToMinorUnitsOfExact | src/models/points.ts:98-101 | an amount that scales to a whole number converts exactly |
| Points.MinorMajorRoundTrip | src/models/points.ts:98-106 | `toMinorUnits(toMajorUnits(m)) == m` for every minor amount at any scale |
| Points.NpToMinorUnitsOfWhole | src/models/points.ts:98-101 | at scale 0, a whole non-negative number converts to itself and a negative one fails |
| Points.NpMajorMinorRoundTrip | src/models/points.ts:98-106 | at scale 0, `toMajorUnits(toMinorUnits(n)) == n` for every natural `n` |
| Points.NpToMajorUnits | src/models/points.ts:103-106 | at scale 0, `toMajorUnits` is the identity |
| Text.DropDigitsAndLowDigits | src/models/points.ts:112 | splitting a number's decimal digits at position `k` keeps its value: the high part times `10^k` plus the low `k` digits |
| Text.DigitsValueBound | src/models/points.ts:112 | `k` decimal digits denote a number below `10^k` |
| Points.FixedString | src/models/points.ts:112 | `toFixed(scale)` of a non-negative amount: a whole part, a point and exactly `scale` digits, with a lone `0` as the whole part only below one; the two parts read together give back the amount |
| Points.FixedStringValue | src/models/points.ts:112 | the whole part of `toFixed(scale)` denotes `minor / 10^scale` and its fraction digits denote `minor % 10^scale` |
| Points.Format | src/models/points.ts:108-115 | `format` is the rendered amount, a space and the symbol; the amount is `toString` at scale 0 and `toFixed(scale)` otherwise |
| Points.NpFormat | src/models/points.ts:108-115 | at scale 0, `format(n)` is the decimal of `n`, a space and `NP` |
| Points.Validate | src/models/points.ts:117-131 | valid exactly on integers in [min, max]; the first failure is reported in the order integer, below minimum, above maximum, with the formatted bound |
| Points.CleanInput | src/models/points.ts:134 | the cleaned input is no longer than the input, and is empty or starts and ends with a non-space |
| Points.ParseAmount | src/models/points.ts:141-148 | throws exactly when `toMinorUnits` does, with its error; succeeds exactly when the converted amount passes `validate`, with that amount; otherwise fails with the message `validate` gives for the converted amount |
| Points.Parse | src/models/points.ts:133-149 | unparseable cleaned input gives the invalid-amount message; a success passes `validate` and lies in [min, max]; what it throws is a negative amount |
| Points.TrimOfDigitToNonSpace | src/models/points.ts:134 | trimming text that runs from a digit to a non-space leaves it alone |
| Points.TrimOfNumeralSpace | src/models/points.ts:134 | trimming a numeral followed by a space drops the space |
| Points.RemoveSymbolAfterNumeral | src/models/points.ts:134 | the symbol is found at the end of `numeral + " " + symbol`, not inside the numeral |
| Points.CleanNumeralWithSymbol | src/models/points.ts:134 | cleaning `numeral + " " + symbol` leaves the numeral |
| Points.CleanInputOfFormat | src/models/points.ts:134 | cleaning the output of `format` at scale 0 leaves the decimal of the amount |
| Points.ParseFormatRoundTrip | src/models/points.ts:108-149 | at scale 0, `parse(format(n))` succeeds with `n` for every `n` in range |
| Points.NpParseFormatRoundTrip | src/models/points.ts:108-149 | `NP.parse(NP.format(n)) == n` for every storable `n` |
| Points.ParseOfReadable | src/models/points.ts:133-148 | once `parseFloat` reads a number from the cleaned input, `parse` is the conversion and validation of that number |
| Points.WholeAtScaleZero | src/models/points.ts:98-101 | at scale 0, a natural converts to itself |
| Points.TrimOfNonSpaceEnds | src/models/points.ts:134 | trimming text with non-space ends leaves it alone |
| Points.CleanNegativeNumeral | src/models/points.ts:134 | cleaning `-n` leaves `-n` |
| Points.ParseFloatOfNegativeNumeral | src/models/points.ts:135 | `parseFloat("-n") == -n` |
| Points.ParseNegativeThrows | src/models/points.ts:141 | as written, `parse("-n")` for positive `n` throws from `createMinorUnits` instead of returning a failure |
| Points.ParseThrowsOnReading | src/models/points.ts:133-141 | when the number `parseFloat` reads makes the conversion throw, `parse` lets that error out |
| Points.NegativeAmountThrows | src/models/points.ts:141 | converting a negative whole number throws the negative-amount error before `validate` runs |
| Points.ParseAmountChecked | src/models/points.ts:141-148 | validating before constructing never throws, a success passes `validate`, and the result agrees with `parse` wherever `parse` does not throw |
| Points.ParseChecked | src/models/points.ts:133-149 | the corrected `parse` never throws, and agrees with `parse` wherever that does not throw |
| Points.ParseCheckedNegative | src/models/points.ts:133-149 | the corrected `parse("-n")` reports the below-minimum message |
| Points.IsSupportedPointsAsWritten | src/models/points.ts:215-217 | the guard as written holds for every supported code, and beyond them only for keys inherited from `Object.prototype` |
| Points.PrototypeKeyPassesGuard | src/models/points.ts:215-217 | as written, `"toString"` passes `isSupportedPoints` but has no definition in the registry |
| Points.IsSupportedPoints | src/models/points.ts:215-217 | the corrected guard holds exactly for `"NP"` |
| Points.GetPoints | src/models/points.ts:164-173 | a supported code yields the NP definition: scale 0, minimum 0, maximum `MAX_SAFE_INTEGER` |
| Ledger.GetWallet | src/services/walletService.ts:34-36 | the wallet filed under the name, or none when there is none |
| Ledger.GetBalanceMinor | src/services/walletService.ts:38-41 | the filed wallet's balance, and 0 when there is no wallet |
| Ledger.ConsistentReads | src/services/walletService.ts:34-41 | in a consistent ledger a read wallet belongs to the name asked for and its balance is non-negative |
| Ledger.AgentWithWallet | src/routes/agentRoutes.ts:5-15 | found exactly when the name is a registered agent and has a wallet |
| Ledger.ReceiptByTx | src/services/receiptService.ts:4-6 | a found receipt is stored and has the id asked for; none is found exactly when no stored receipt has that id |
| Ledger.ReceiptByTxStable | src/services/receiptService.ts:4-6 | appending receipts does not change what an earlier lookup found |
| Ledger.ReceiptByTxAppended | src/services/receiptService.ts:4-6 | after a receipt with a fresh id is appended, the lookup of that id finds it |
| Ledger.TotalSplit | src/services/transactionService.ts:20-33 | the sum of all balances is one wallet's balance plus the sum of the others |
| Ledger.TotalUpdate | src/services/transactionService.ts:20-33 | changing one balance by `d` changes the sum of all balances by `d` |
| Ledger.InsertWallet | src/services/walletService.ts:24-27 | the insert succeeds exactly when it is attempted with an unused name and an unused wallet id, and then files the wallet; it never removes a wallet, adds none but the new one, and leaves every other wallet unchanged |
| Ledger.EnsureWalletSpec | src/services/walletService.ts:9-32 | `ensureWallet` adds at most the named wallet, keeps every existing wallet and both logs, and a wallet it returns is the one filed under the name |
| Ledger.EnsureWalletInvalidSeed | src/services/walletService.ts:11 | the seed is converted before anything is read; it fails exactly when the seed is at most -1, and then as negative, whether or not a wallet exists |
| Ledger.EnsureWalletExisting | src/services/walletService.ts:13-31 | an existing wallet is returned unchanged and the store is not touched |
| Ledger.EnsureWalletCreates | src/services/walletService.ts:14-22 | with no wallet yet, a wallet with the new id, the seed balance and `createdAt == updatedAt` is filed and returned |
| Ledger.EnsureWalletDefaultSeed | src/services/walletService.ts:5-11 | without a seed, a new wallet holds 1000 points |
| Ledger.EnsureWalletInsertErrors | src/services/walletService.ts:23-28 | a lost race returns the winner's wallet; a duplicate-key failure (code 11000) with no wallet to re-read returns none; any other insert failure is the error and leaves the store unchanged |
| Ledger.EnsureWalletIdempotent | src/services/walletService.ts:9-32 | a second `ensureWallet` returns the wallet of the first and changes nothing |
| Ledger.EnsureWalletPreservesConsistent | src/services/database.ts:18-23 | `ensureWallet` keeps the ledger consistent: one wallet per name, distinct wallet ids, non-negative balances |
| Ledger.AddWalletSound | src/services/database.ts:20-21 | filing a wallet under an unused name and an unused id, with a non-negative balance, keeps every wallet filed under its owner and the wallet ids distinct |
| Ledger.Adjust | src/services/transactionService.ts:20-33 | `$inc` on one wallet: that wallet's balance moves by `delta` and its `updatedAt` becomes the time of the update, the rest of the wallet stays, no wallet is added or removed, and every other wallet is unchanged |
| Ledger.TransferSpec | src/services/transactionService.ts:7-63 | `transfer` never adds or removes an agent or a wallet; a success appends exactly its own transaction and receipt, both under the given id; a failure appends nothing |
| Ledger.TransferChecks | src/services/transactionService.ts:15-25 | sender, receiver and funds are checked in that order; each failure is exact (if and only if); every failure except the credit's leaves the ledger untouched |
| Ledger.TransferSucceeds | src/services/transactionService.ts:7-63 | a transfer between two parties moves exactly the amount, leaves every other wallet alone, and appends one completed transaction and one receipt with the balances after the update |
| Ledger.TransferReceiptNamesPayment | src/services/transactionService.ts:51-60 | the receipt names the transaction id, both parties and the amount |
| Ledger.TransferToSelf | src/services/transactionService.ts:20-33 | a transfer to oneself leaves the balance as it was, while the receipt's sender balance is the one read between the two updates |
| Ledger.TransferReceiverFault | src/services/transactionService.ts:27-33 | a failed credit leaves the sender debited and logs nothing |
| Ledger.TransferConserves | src/services/transactionService.ts:20-33 | a successful transfer, and every failure before the debit, keeps the total of all balances; a failed credit destroys exactly the amount |
| Ledger.TransferPreservesConsistent | src/services/transactionService.ts:7-63 | `transfer` keeps the ledger consistent, given a fresh transaction id |
| Ledger.DebitedConsistent | src/services/transactionService.ts:20-33 | a transfer whose credit fails still leaves a consistent ledger |
| Ledger.CompletedConsistent | src/services/transactionService.ts:7-63 | a completed transfer under a fresh id leaves a consistent ledger |
| Ledger.DebitedView | src/services/transactionService.ts:20-33 | a transfer whose credit fails leaves exactly the debited wallets and untouched logs |
| Ledger.CompletedView | src/services/transactionService.ts:20-60 | a completed transfer leaves the debited and credited wallets, the completed transaction and the receipt with both new balances |
| Ledger.AdjustSound | src/services/transactionService.ts:20-24 | a balance change that does not go below zero keeps every wallet filed under its owner, non-negative, and the wallet ids distinct |
| Ledger.AppendSound | src/services/transactionService.ts:36-60 | appending a matching transaction and receipt under a fresh id keeps both logs paired and their ids distinct |
| Ledger.ExtendsTransitive | src/services/database.ts:17-24 | the ledger only grows: growth composes |
| Ledger.OperationsExtend | src/services/transactionService.ts:7-63 | `ensureWallet` and `transfer` only add wallets and append to the logs |
| Ledger.TransferExtends | src/services/transactionService.ts:7-63 | every outcome of `transfer`, failed or not, only grows the ledger |
| Ledger.AgentNameLookup | src/services/walletService.ts:13-22 | in a consistent ledger, a lookup by `agent_name` finds a wallet exactly when the name has one |
| Ledger.TransferAsWritten | src/services/transactionService.ts:12-17 | as written, a transfer can succeed only if some wallet has an `agent_id` equal to each party, and then it is the corrected transfer |
| Ledger.TransferAsWrittenAlwaysFails | src/services/transactionService.ts:12-17 | as written, the `agent_id` lookup never matches, so every transfer fails with `SENDER_WALLET_NOT_FOUND` and changes nothing |
| Ledger.Ledger.InsertOne | src/services/walletService.ts:24-27 | the unique-index insert on the store, as `InsertWallet` describes it |
| Ledger.Ledger.EnsureWallet | src/services/walletService.ts:9-32 | `ensureWallet` on the store in place: the new state and the answer are `EnsureWalletSpec`'s, and the store stays consistent |
| Ledger.Ledger.Transfer | src/services/transactionService.ts:7-63 | `transfer` on the store in place, step by step: the new state and the answer are `TransferSpec`'s, and the store stays consistent |
| PaymentGate.ExtractPaymentHeaders | src/middleware/x402-mcp.ts:63-75 | present exactly when all three payment arguments are truthy, and then it carries them as given |
| PaymentGate.ClaimedAmount | src/middleware/x402-mcp.ts:124 | `parseFloat` of the claimed amount: a string is parsed, a number is itself |
| PaymentGate.FindPayer | src/middleware/x402-mcp.ts:139 | found exactly when the claimed payer is a registered agent with a wallet |
| PaymentGate.FindReceipt | src/middleware/x402-mcp.ts:151 | a found receipt is stored and has the claimed id |
| PaymentGate.StepText | src/middleware/x402-mcp.ts:91-96 | the transfer step ends with the recipient's name; an argument step names its key and its placeholder at fixed places |
| PaymentGate.PaymentSteps | src/middleware/x402-mcp.ts:90-97 | six steps: first a transfer of the price to the recipient, last the retry, and the steps ask for exactly the three arguments the gate reads |
| PaymentGate.VerifyPayment | src/middleware/x402-mcp.ts:119-192 | a verified payment carries the claimed amount, equal to the price, and a stored receipt from the payer to the recipient for the price |
| PaymentGate.VerifyPaymentMeansPaid | src/middleware/x402-mcp.ts:119-192 | with unique receipt ids, verification succeeds exactly when the price was claimed, the payer has a wallet, and a receipt under the id shows the payment |
| PaymentGate.VerifyPaymentFirstFailure | src/middleware/x402-mcp.ts:124-185 | the checks run in the order amount, payer, receipt, match: when the earlier checks pass and one fails, its message is the one reported |
| PaymentGate.AmountDecidedFirst | src/middleware/x402-mcp.ts:124-136 | a wrong or `NaN` amount is refused whatever the ledger holds |
| PaymentGate.ClaimedAmountIgnoresTrailingText | src/middleware/x402-mcp.ts:124-125 | an amount like `"1abc"` is read as 1 and passes the amount check |
| PaymentGate.PaymentRequiredResponse | src/middleware/x402-mcp.ts:77-107 | error `PAYMENT_REQUIRED`, protocol `x402-np`, the tool, the price in NP at scale 0 with the recipient, the description or its default; the first step asks for a transfer of the price to the recipient, and the steps ask for exactly the three arguments the gate reads |
| PaymentGate.ErrorResponse | src/middleware/x402-mcp.ts:194-204 | the error's message and data |
| PaymentGate.StripPaymentFields | src/middleware/x402-mcp.ts:53-57 | the arguments without the three payment keys, every other argument unchanged |
| PaymentGate.WithPayment | src/middleware/x402-mcp.ts:25-61 | no payment gives the Payment Required answer; the handler runs exactly on a verified payment, and on the stripped arguments; a refused payment answers with the verification's error |
| PaymentGate.WithPaymentSound | src/middleware/x402-mcp.ts:25-61 | the handler runs only on a paid call |
| PaymentGate.PayThenCall | src/middleware/x402-mcp.ts:25-61 | after a transfer of the price to the recipient, retrying with the payer, the new transaction id and the price runs the handler |
| PaymentGate.TransferOpensGate | src/middleware/x402-mcp.ts:119-192 | after a successful transfer of the price to the recipient under a fresh id, the payer's claim of that id and the price verifies |
| PaymentGate.NoReplayProtection | src/middleware/x402-mcp.ts:119-192 | a verified payment stays verified under every later growth of the ledger, so one receipt opens the gate again and again |
| McpServer.GetBalance | src/mcp/server.ts:43-64 | refuses an empty name; answers `AGENT_NOT_FOUND` exactly when the agent or its wallet is missing, and otherwise the balance in minor units and in points |
| McpServer.GetBalanceNonNegative | src/mcp/server.ts:55-61 | in a consistent ledger the reported balance is never negative |
| McpServer.InitiateSpec | src/mcp/server.ts:77-110 | the handler never adds an agent or a wallet; a successful answer carries the new id, its receipt and the amount, and grows both logs by one; every other answer leaves both logs alone |
| McpServer.InitiateChecksAgentsFirst | src/mcp/server.ts:82-90 | the sender is checked before the receiver, and either failure leaves the ledger unchanged |
| McpServer.InitiateErrorsAreAnswers | src/mcp/server.ts:92-109 | every error `transfer` throws comes back as an answer naming it |
| McpServer.WholeAmountConverts | src/mcp/server.ts:93 | an amount the schema admits converts to its own whole number of minor units |
| McpServer.InitiateSucceeds | src/mcp/server.ts:93-106 | a successful answer echoes the transaction's id, status, parties, NP currency, scale 0 and the amount, with the receipt as payload |
| McpServer.InitiateTransaction | src/mcp/server.ts:66-111 | schema refusals change nothing; otherwise the answer and the new state are the handler's, and the ledger stays consistent |
| McpServer.InitiateTransfer | src/mcp/server.ts:77-110 | the handler body on the ledger in place agrees with `InitiateSpec` and keeps the ledger consistent |
| McpServer.GetReceipt | src/mcp/server.ts:113-127 | refuses an empty id; answers with the stored receipt under the id, or `NOT_FOUND` exactly when there is none |
| McpServer.ReceiptOfTransactionIsStored | src/mcp/server.ts:93-125 | the receipt a successful transfer answers with is the one `getReceipt` then finds |
| McpServer.TimestampHandler | src/mcp/server.ts:140-155 | the paid handler answers the ISO time as both timestamp and server time, the zone `UTC`, and the Unix seconds of the clock rounded down |
| McpServer.GetTimestamp | src/mcp/server.ts:129-156 | refuses non-string payment arguments; otherwise it is the gate over the clock's reading at 1 NP to `system` |
| McpServer.GetTimestampRequiresPayment | src/mcp/server.ts:129-140 | without payment, the answer asks for 1 NP to `system` with the tool's description |
| McpServer.GetTimestampWhenPaid | src/mcp/server.ts:140-155 | with a verified payment, the answer is the timestamp, the Unix seconds and `UTC` |
| McpServer.GetPaymentInfo | src/mcp/server.ts:174-200 | protocol `x402-np`, currency NP, scale 0, the paid-tool configuration and six steps, the middle three naming the `X-PAYMENT-TX-ID`, `X-PAYMENT-AGENT` and `X-PAYMENT-AMOUNT` headers |
| McpServer.PaymentInfoNamesNoGateArgument | src/mcp/server.ts:190-194 | no header the published steps name is one of the three arguments the gate reads |
| McpServer.PaymentInfoMatchesGate | src/mcp/server.ts:174-200 | the published price of every paid tool is what the gate asks for |
| CombinedServer.InitiateTransaction | src/combined-server.ts:54-96 | schema refusals (including an empty task) change nothing; otherwise the answer and the new state are the shared handler's with the task, and the ledger stays consistent |
| CombinedServer.TaskIsRecorded | src/combined-server.ts:78 | the task given to the tool is the task of the logged transaction |
| CombinedServer.AttachUnknownAgent | src/combined-server.ts:131-135 | an unregistered agent is answered `AGENT_NOT_FOUND` and nothing is created |
| CombinedServer.AttachReportsFiledWallet | src/combined-server.ts:136-142 | an attached answer describes the wallet now filed for the agent, in minor units and points, with the fixed message |
| CombinedServer.AttachSeedsNewWallet | src/combined-server.ts:126-132 | a seed the schema admits never throws, and a new wallet holds exactly that seed (1000 by default) |
| CombinedServer.AttachWalletSpec | src/combined-server.ts:121-144 | `attachWallet` keeps the agents, the logs and every existing wallet, and an attached answer names a registered agent and the wallet filed for it |
| CombinedServer.AttachWallet | src/combined-server.ts:121-144 | schema refusals change nothing; otherwise the answer and the new state are `AttachWalletSpec`'s, and the ledger stays consistent |
| SdkPaywall.Header | sdk/typescript/src/paywall.ts:54-57 | the value under the name, else under its lower-case form; of several values the first, and none for an empty list |
| SdkPaywall.RestReceiptOf | src/models/receipt.ts:4-12 | a stored receipt as served: parties and amount, with no `error` and no `scale` field |
| SdkPaywall.AmountPoints | sdk/typescript/src/paywall.ts:32 | with a scale and an amount, `amountMinor / 10^scale`; without a scale, `undefined` |
| SdkPaywall.PaymentRequired | sdk/typescript/src/paywall.ts:59-74 | `PAYMENT_REQUIRED`, `x402-np`, the price in NP, the recipient, the description or `Payment required`, and three steps, the first naming price and recipient |
| SdkPaywall.Decide | sdk/typescript/src/paywall.ts:18-51 | every answer is 402 or 500; a 500 happens exactly when all headers are given and the lookup throws, and it carries `Internal error verifying payment` with the thrown message |
| SdkPaywall.X402NpExpress | sdk/typescript/src/paywall.ts:14-52 | the middleware as written calls `next()` only for a looked-up receipt that carries both a scale and an amount |
| SdkPaywall.NextIffPaid | sdk/typescript/src/paywall.ts:18-47 | `next()` is called exactly when all headers are given, the receipt has no error, the parties match, and both the receipt amount and the amount header equal the price |
| SdkPaywall.MissingHeadersRequirePayment | sdk/typescript/src/paywall.ts:18-24 | the 402 PAYMENT_REQUIRED answer is given exactly when a header is missing or empty |
| SdkPaywall.ErrorReceiptNotFound | sdk/typescript/src/paywall.ts:27-30 | a lookup answering with an error gives 402 `Payment receipt not found` with the transaction id |
| SdkPaywall.PartyBeforeAmount | sdk/typescript/src/paywall.ts:34-45 | with the wrong parties the answer is a party mismatch, whatever the amounts |
| SdkPaywall.MissingScaleNeverPasses | sdk/typescript/src/paywall.ts:32-45 | a receipt without a scale never gets past the amount check |
| SdkPaywall.ThrownIsInternalError | sdk/typescript/src/paywall.ts:48-50 | a throwing lookup gives 500 `Internal error verifying payment` with its message |
| SdkPaywall.ServerReceiptNeverAccepted | sdk/typescript/src/paywall.ts:32-47 | as written, no receipt the ledger stores ever lets a request through |
| SdkPaywall.AmountPointsAtNpScale | sdk/typescript/src/paywall.ts:32 | the corrected reading: a receipt's own scale if it has one, and the NP scale 0 otherwise |
| SdkPaywall.CorrectedAcceptsServerReceipt | sdk/typescript/src/paywall.ts:32-47 | with the corrected reading, a stored receipt of the price from the caller to the recipient lets the request through |
| SdkPaywall.CorrectedAcceptsTransfer | sdk/typescript/src/paywall.ts:18-47 | with the corrected reading, the receipt `transfer` files for the price opens the paywall for the payer |
| PythonPaywall.HeaderGet | sdk/python/src/nanda_points_sdk/paywall.py:13-15 | the header is looked up without regard to case |
| PythonPaywall.PyAmountPoints | sdk/python/src/nanda_points_sdk/paywall.py:25-26 | with a scale, `amountMinor / 10 ** scale`, raising when the amount is missing; without a scale, `None` |
| PythonPaywall.PyPaymentRequired | sdk/python/src/nanda_points_sdk/paywall.py:62-74 | `PAYMENT_REQUIRED`, `x402-np`, the price in NP, the recipient, and two steps, the first naming price and recipient |
| PythonPaywall.PyDecide | sdk/python/src/nanda_points_sdk/paywall.py:17-33 | the check both wrappers make; it raises only what the lookup or the amount computation raised |
| PythonPaywall.FlaskOf | sdk/python/src/nanda_points_sdk/paywall.py:17-33 | Flask calls the view exactly on admission, answers a refusal with its body and status 402, and lets an error out |
| PythonPaywall.FastApiOf | sdk/python/src/nanda_points_sdk/paywall.py:47-58 | FastAPI returns exactly on admission, raises `HTTPException(402)` with the refusal's body, and lets an error out |
| PythonPaywall.X402NpFlask | sdk/python/src/nanda_points_sdk/paywall.py:7-36 | the Flask wrapper as written calls the view only for a receipt that carries both a scale and an amount |
| PythonPaywall.X402NpFastApi | sdk/python/src/nanda_points_sdk/paywall.py:39-59 | the FastAPI dependency as written returns only for a receipt that carries both a scale and an amount |
| PythonPaywall.AgentHeaderNamesAgree | sdk/python/src/nanda_points_sdk/paywall.py:13 | `X-PAYMENT-AGENT` and `x-payment-agent` name the same header |
| PythonPaywall.TxIdHeaderNamesAgree | sdk/python/src/nanda_points_sdk/paywall.py:14 | `X-PAYMENT-TX-ID` and `x-payment-tx-id` name the same header |
| PythonPaywall.AmountHeaderNamesAgree | sdk/python/src/nanda_points_sdk/paywall.py:15 | `X-PAYMENT-AMOUNT` and `x-payment-amount` name the same header |
| PythonPaywall.FlaskAndFastApiAgree | sdk/python/src/nanda_points_sdk/paywall.py:7-59 | on every request and lookup answer, the Flask wrapper answers where the FastAPI dependency raises the same 402, calls the view where it returns, and raises what it raises |
| PythonPaywall.CallIffPaid | sdk/python/src/nanda_points_sdk/paywall.py:17-33 | the wrapped view is called exactly when all headers are given, the receipt has no error, the parties match, the amount in points is the price, and the header is `str(price_np)` |
| PythonPaywall.PyMissingHeadersRequirePayment | sdk/python/src/nanda_points_sdk/paywall.py:17-18 | the 402 PAYMENT_REQUIRED body is sent exactly when a header is missing or empty |
| PythonPaywall.PyErrorReceiptNotFound | sdk/python/src/nanda_points_sdk/paywall.py:20-22 | a receipt with an error gives 402 `Payment receipt not found` with the transaction id |
| PythonPaywall.PyPartyBeforeAmount | sdk/python/src/nanda_points_sdk/paywall.py:25-31 | a party mismatch is reported before any amount mismatch, except that a receipt with a scale and no amount raises first |
| PythonPaywall.PyMissingScaleNeverPasses | sdk/python/src/nanda_points_sdk/paywall.py:25-33 | a receipt without a scale never reaches the view, in either framework |
| PythonPaywall.PyServerReceiptNeverAccepted | sdk/python/src/nanda_points_sdk/paywall.py:25-33 | as written, no receipt the ledger stores ever reaches the view |
| PythonPaywall.PyAmountPointsAtNpScale | sdk/python/src/nanda_points_sdk/paywall.py:25-26 | the corrected reading: a receipt's own scale if it has one, and the NP scale 0 otherwise |
| PythonPaywall.CorrectedFlaskAcceptsServerReceipt | sdk/python/src/nanda_points_sdk/paywall.py:20-33 | with the corrected reading, a stored receipt of the price from the caller to the recipient reaches the view |

## Left out

- MCP and Express transport, sessions and JSON text rendering are left out. Answers are modelled as datatype values, not as the text `JSON.stringify` produces.
- Concurrency is not modelled. Operations run one after another. A concurrent `ensureWallet` that wins the insert race is the `Raced` outcome. A wallet that vanishes between transfer steps is an `UpdateFault` parameter.
- Fresh UUIDs, `new Date()` and `Date.now()` are parameters. A fresh transaction id is a precondition.
- Store calls other than the modelled ones are assumed to succeed. The modelled failures are the wallet insert's outcome in `ensureWallet` and a failed wallet update in `transfer`. The two `insertOne` calls that log a transfer (src/services/transactionService.ts:48, 60) are taken never to throw. If one did, the balances would have moved with nothing logged, or a transaction would be logged without its receipt, which breaks the pairing `Ledger.LogsSound` keeps. A fresh transaction id already rules out a unique-index failure there.
- Ledger.Ledger.Transfer takes the transaction id as a parameter instead of drawing it inside the call. It requires that the id be fresh.
- Floating point is approximate:
  - numbers are exact reals;
  - `parseFloat` covers optional leading whitespace, a sign, digits and a fraction, but not exponents or `Infinity`;
  - `toFixed` is modelled for non-negative amounts;
  - `toString` is modelled for whole numbers only;
  - amounts beyond `MAX_SAFE_INTEGER` are exact here, although JavaScript rounds them.
- Python's `str` of a float is the `priceText` parameter of the paywall configuration.
- `toLowerCase` is modelled on ASCII letters only.
- The legacy exports of `src/models/points.ts` (lines 186-199) and the `toMinor`/`toPoints` helpers of `src/models/agent.ts` only rename the NP conversions, which are modelled once.
- `setServiceCharge` and the agent metadata it writes are informational and left out.
- src/routes/walletRoutes.ts is not part of this model. `attachWallet` is modelled from its tool description: an unregistered agent gets no wallet, and otherwise `ensureWallet` runs. Wallet shapes the tool does not describe may differ.
- The REST clients and the REST routes are not part of this model. An SDK paywall's receipt lookup is a parameter: a receipt object, or the message of what the lookup threw. Answers that are JSON `null`, arrays, or objects whose fields have other types are not modelled. The Express paywall imports `./rest.js`, which has no source under sdk/typescript/src; sdk/src/rest.ts (the `NandaPointsRest` class) is taken as that module.
- The receipt route the paywalls depend on does not exist as written. Both clients request `/api/receipts/<txId>` (sdk/src/rest.ts:45-48, sdk/python/src/nanda_points_sdk/rest.py:35-38). The receipts router is mounted at `/receipts` (src/api/index.ts:11) and serves only `/`, `/agent/:agentName`, `/id/:id` and `/transaction/:txId` (src/api/receiptApi.ts:7-67). So every lookup is a 404 and the client throws. The Express paywall then answers 500 with `getReceipt failed: 404` (sdk/typescript/src/paywall.ts:48-50), which is `SdkPaywall.ThrownIsInternalError`. In Python, `raise_for_status` raises out of both wrappers (sdk/python/src/nanda_points_sdk/paywall.py:20, 49), which is the `Raise` decision. The route table is not modelled. The scale finding for the paywalls assumes a lookup that reaches `/receipts/transaction/:txId`.
- PythonPaywall.X402NpFastApi: the dependency's `request` parameter has no `Request` annotation (sdk/python/src/nanda_points_sdk/paywall.py:42). FastAPI would then read it as a query parameter, not inject the request, so the dependency would fail (422, or an `AttributeError`) before its checks run. The model assumes the request is injected, and PythonPaywall.FlaskAndFastApiAgree covers only the dependency's body.
- PaymentGate.AsText: composite payment arguments (arrays and objects) are taken to match no stored string. MongoDB would read an object such as `{$ne: ""}` as a query operator. This is sound only where the tool's input schema admits strings alone. `getTimestamp`'s schema declares the three payment arguments as optional strings (src/mcp/server.ts:133-137), so the MCP layer rejects composites before the gate sees them.
- SdkPaywall.PaywallConfig, PaymentGate.ToolConfig: prices are whole numbers of points, in the Express paywall and in the MCP gate alike. A fractional price, and its `String` rendering, is not modelled.
- McpServer.GetTimestamp: the gate's tool arguments are modelled as strings, numbers, booleans, `null` or an opaque composite. The string form of a composite value (`String([5])`) is not modelled.

## Findings

| source | as written | input that shows it | evidently intended | confidence | as-written member | corrected member |
|---|---|---|---|---|---|---|
| src/services/transactionService.ts:12-13 | wallets are looked up by `agent_id`, a field no wallet has; `ensureWallet` files wallets with `agent_name` | any transfer between two agents that have wallets fails with `SENDER_WALLET_NOT_FOUND` | look both wallets up by `agent_name`, as `getWallet` does | high; not executed | Ledger.TransferAsWrittenAlwaysFails | Ledger.TransferSucceeds |
| src/models/points.ts:141 | `toMinorUnits` builds the amount through `createMinorUnits`, which throws a `RangeError` on a negative value before `validate` can report it | `NP.parse("-5")` throws instead of returning a failure | return `{ success: false }` with the below-minimum message | high; not executed | Points.ParseNegativeThrows | Points.ParseCheckedNegative |
| src/models/points.ts:215-217 | `code in SUPPORTED_POINTS` also holds for the keys `SUPPORTED_POINTS` inherits from `Object.prototype` | `isSupportedPoints("toString")` is true, and `getPoints` then returns a function, not a points definition | hold only for the registry's own key `"NP"` | high; not executed | Points.PrototypeKeyPassesGuard | Points.IsSupportedPoints |
| sdk/typescript/src/paywall.ts:32 | the amount in points is computed only when the receipt carries `scale`, and receipts filed by `transfer` never do | given a lookup that reaches the receipt served at `/receipts/transaction/:txId` (src/api/receiptApi.ts:53-67), a request with the right headers for a genuine one-point payment gets 402 `Invalid payment amount`; the client as written asks a different route, see Left out | read a receipt without a scale at the NP scale 0 | medium; not executed | SdkPaywall.ServerReceiptNeverAccepted | SdkPaywall.CorrectedAcceptsTransfer |
| sdk/python/src/nanda_points_sdk/paywall.py:25-26 | the same scale condition in both Python variants | given the same lookup of `/receipts/transaction/:txId`, the same genuine payment gets 402 `Invalid payment amount` in both wrappers | read a receipt without a scale at the NP scale 0 | medium; not executed | PythonPaywall.PyServerReceiptNeverAccepted | PythonPaywall.CorrectedFlaskAcceptsServerReceipt |
