# Proofs about the bank's payment core

A Dafny model of how this bank moves money, with machine-checked proofs about every run of it. Two
engines are covered: the current one in `backend/src` (serializable transactions, idempotency keys, Redis
step-up challenges) and the earlier one in `_legacy_demo/backend` (row locks taken with `SELECT … FOR UPDATE`).

`dafny verify dfyconfig.toml` checks the whole project.

## How it is organised

| file | what it holds |
|---|---|
| `Text.dfy`, `Json.dfy` | trimming, decimal digits, printed amounts; `JSON.stringify` and a parser for it (RFC 8259) |
| `Rows.dfy`, `Requests.dfy` | the tables; the three payment requests, their canonical strings, stored responses and challenges |
| `Posting.dfy`, `Conditions.dfy` | one database transaction of each posting route, as a function of the tables; when it posts and why it refuses, said about the columns alone |
| `Effects.dfy`, `Answers.dfy` | what a posted payment writes and answers, column by column; every check on the way |
| `Protocol.dfy` | the step system: calls in flight, one awaited statement or one serializable transaction per step |
| `Bank.dfy` | the same protocol in place: class `Server`, statement order, rollback, the retry loop |
| `Frames.dfy`, `Invariants.dfy`, `Preservation.dfy` | what each step leaves alone; the invariant and its preservation |
| `Theorems.dfy` | step-up, exactly once, keys and transactions, replays |
| `Retries.dfy` | the retry loop is one attempt |
| `Totals.dfy`, `Ledger.dfy` | balances against the ledger, conservation, solvency |
| `Statements.dfy` | account statements over time windows |
| `Payees.dfy`, `Routing.dfy` | saved beneficiaries; whose account a payment debits and which one it credits |
| `Flows.dfy` | whole payments, with and without step-up |
| `Administration.dfy` | KYC updates, admin credits and registrations, run to their end |
| `Legacy.dfy`, `LegacyProofs.dfy`, `LegacyAnswers.dfy`, `LegacyBank.dfy` | the earlier engine, its serializability, its answers, and its class |
| `Csv.dfy`, `AmountRule.dfy` | the exported CSV text; the two-decimal rule for amounts |

A state of the current engine is a `System`: tables, Redis map, calls in flight and a history of events that
no step reads. `Next` takes one action: a call arrives, a call executes its next awaited statement, or a
challenge expires. `Exec` runs any finite sequence of actions, so a lemma about `Exec(s, run)` speaks of every
interleaving of every number of calls. `Bank.Server` executes the same steps by assignments in the order of
the source's statements, and each of its methods is proved equal to the function of the step system.

## What is assumed

- A transaction at Serializable isolation is one atomic step. It may fail with a serialization error (P2034)
  at any attempt, and then it changes nothing. Each Redis command is atomic.
- SHA-256 is injective: the canonical string stands for its hash.
- Generated ids, challenge ids, OTPs and dates are arbitrary. A generated id that is taken already is refused
  by the primary key; a challenge id that is taken overwrites the challenge stored there.
- Authenticated user ids contain no colon (they are UUIDs). Strings are sequences of Unicode scalar values.
- Request amounts are whole cents. For `CreateTransferDto` that is what its validation guarantees, as `AmountRule`
  shows; the other requests use the validation library's own two-decimal rule. Balances and ledger
  amounts are counted in ten-thousandths of a RON, as the columns hold them, without overflow. Ledger times
  are counted in microseconds and statement dates in milliseconds.
- `findFirst` without an order scans accounts in an order that is a parameter of the step. The theorems over
  runs do not require that the scan covers the table.
- In the earlier engine a row lock, or the insertion of a unique key, waits for the transaction that holds it;
  the database may abort any open transaction at any statement.

## Where the code and its promises differ

- A statement ends at 23:59:59.999 while the ledger column holds microseconds, so an entry in the last
  millisecond of a day can fall between two consecutive statements, and a run that does this exists
  (`Statements.MissedEntryIsReachable`). They fit together exactly when what falls into that gap nets to zero
  (`Statements.ChainAgrees`), their listings are complete exactly when the gaps are empty
  (`Statements.ChainPartitions`), and with whole-millisecond times they always are.
- The CSV export wraps fields in quotes without doubling quotes inside them. It reads back exactly when no field
  holds a quote (`Csv.ExportReadsBack`); with one, two lines and one line can have the same text
  (`Csv.QuotesMakeItAmbiguous`).
- The two-decimal validator looks at the printed number, so on its own it accepts 1e-7 (`AmountRule.BoundIsNeeded`).
  With the bounds beside it the test is exact (`AmountRule.AcceptedIsWholeCents`).
- Before some of its errors the code marks the key FAILED; that write is undone by the throw that follows it,
  so every committed key row is COMPLETED (`Theorems.KeyToTransaction`), the branches for FAILED and IN_PROGRESS
  rows are never taken, and a key whose attempts failed is still free (`Theorems.OutcomeOfAttempt`).

## Model

| member | source | states |
|---|---|---|
| Theorems.StepUpEnforced | backend/src/payments/payments.service.ts:205-236 | In every run, a customer transaction over 1000 RON was posted by a call that read KYC as verified and confirmed, with its own OTP, a challenge issued earlier to the same user for the same request and key |
| Preservation.StoredChallenge | backend/src/payments/payments.service.ts:1069-1093 | Whatever `get` returns in a reachable state is, once parsed, a challenge issued to this very user under this very id |
| Preservation.NextKeepsInv | backend/src/payments/payments.service.ts:238-306 | Every step of every call keeps the invariant that ties tables, challenges and calls in flight to the history |
| Preservation.ReplayOfCompleted | backend/src/payments/payments.service.ts:326-342 | A key row is answered with the first body exactly when the request is the same, and with a conflict otherwise, on whichever route it comes |
| Theorems.PostedAtMostOnce | backend/prisma/schema.prisma:205 | Two posted payments have the same user and key exactly when they are one event, over all three routes together |
| Theorems.SuccessesAgree | backend/src/payments/payments.service.ts:1069-1093 | Two successful calls with one user and key (two racing confirmations of one challenge among them) return the same body for the same request, and at most one of them posted |
| Answers.AnswersAreTrue | backend/src/payments/payments.service.ts:531-551 | In every run, every successful answer, first or repeated, is true of the committed rows: the transaction it names, its accounts, amount, currency, type, description and key, the request's own ids, and whether the beneficiary is inside the bank |
| Theorems.KeyDecides | backend/src/payments/payments.service.ts:317-365 | In every state satisfying the invariant a key decides the answer to a request, and an unused key answers none |
| Theorems.OutcomeOfAttempt | backend/src/payments/payments.service.ts:627-673 | A transaction posts exactly when the tables allow the payment (key unused, source owned, active and covered, destination as the route requires), answers from the key exactly when the same request was posted before, and otherwise throws; unless it posts, no table changes, so a key whose attempts failed is still free |
| Conditions.CommitsExactly | backend/src/payments/payments.service.ts:407-461 | A transaction commits a payment record exactly when the tables allow it, for each of the three routes |
| Conditions.LookupsSelect | backend/src/payments/payments.service.ts:684-713 | Each account lookup finds the first of the scan that its clause selects, spelled on the columns (IBAN and customer account, external settlement account, system account), and nothing exactly when none is |
| Conditions.TakenIdsAreRefused | backend/src/payments/payments.service.ts:353-405 | A refused generated id: a key conflict on the internal transfer, a unique violation elsewhere, and no table changes |
| Conditions.TransferRefusals | backend/src/payments/payments.service.ts:407-461 | With an unused key, which error an internal transfer gets, exactly: source not own or not active, destination likewise, currency, funds; it posts exactly in the remaining case |
| Conditions.BeneficiaryTransferRefusals | backend/src/payments/payments.service.ts:658-717 | The same for a transfer to a beneficiary: source, funds, beneficiary, no destination, own account as destination |
| Conditions.MerchantRefusals | backend/src/payments/payments.service.ts:943-980 | The same for a merchant payment: source, merchant, its currency, funds |
| Theorems.KeyToTransaction | backend/src/payments/payments.service.ts:531-551 | Every committed key row is COMPLETED and its stored body names a posted customer transaction whose rows agree with it |
| Theorems.TransactionToKey | backend/src/payments/payments.service.ts:745-813 | Every customer transaction is named by the stored body of some key row |
| Theorems.KeysAndTransactionsOneToOne | backend/src/payments/payments.service.ts:988-1055 | Key rows and customer transactions are in one-to-one correspondence in every reachable state |
| Theorems.AuditsAndTransactionsOneToOne | backend/src/payments/payments.service.ts:507-522 | Posting audit rows and transactions are in one-to-one correspondence, each audit action fitting its transaction's type |
| Theorems.KeyRowForever | backend/src/payments/payments.service.ts:212-217 | A committed key row never changes again in any run, which is what the completed-key shortcut around step-up relies on |
| Theorems.ReplayReturnsFirstBody | backend/src/payments/payments.service.ts:326-342 | A resubmission of a posted request, in any interleaving, can only end with the first body, a KYC refusal or a serialization failure |
| Theorems.ReplayIsQuiet | backend/src/payments/payments.service.ts:776-796 | None of the own steps of such a resubmission changes any table |
| Theorems.ResubmissionIsAnswered | backend/src/payments/payments.service.ts:1077-1089 | With KYC still verified, a resubmission, also of a confirmed request above the threshold, is answered with the first body and no table has changed |
| Flows.SmallPaymentIsPosted | backend/src/payments/payments.service.ts:238-306 | Up to 1000 RON, a payment the tables allow is posted in two steps: 201, a response that shows the request's own accounts, the transaction id, RON and the amount with two decimals, and exactly its rows: two balances, one transaction, a debit and a credit, one audit row, one completed key |
| Flows.LargePaymentIsChallenged | backend/src/payments/payments.service.ts:212-235 | Above 1000 RON, a payment under a new key ends with a step-up error, its challenge is stored and no table changes |
| Flows.ConfirmationPosts | backend/src/payments/payments.service.ts:1069-1093 | Confirming a stored challenge with its OTP, when the tables allow its payment, posts that very payment in four steps, with the same answer and rows, and the challenge is gone |
| Answers.EntryDecides | backend/src/payments/payments.service.ts:248-274 | The first statement and checks of a payment, each with its own error, in their order: KYC, same account, currency, a merchant payment of nothing, step-up above 1000 RON; no table changes |
| Answers.BlankKeyIsRefused | backend/src/payments/payments.service.ts:244-246 | A key is refused on arrival exactly when it is blank |
| Answers.RiskDecides | backend/src/payments/payments.service.ts:212-217 | The idempotency read before step-up goes on exactly when the key's row is COMPLETED, whatever rows the table holds |
| Answers.TransferKeyDecides | backend/src/payments/payments.service.ts:326-351 | What any key row answers on the internal transfer: only a COMPLETED row answers, a different hash and an unreadable body conflict |
| Answers.OtherKeyDecides | backend/src/payments/payments.service.ts:633-644 | What any key row answers on the other two routes: the hash first, then a COMPLETED row with a readable body, else failed or in progress |
| Answers.ConfirmationDecides | backend/src/payments/payments.service.ts:1069-1083 | A missing challenge and a wrong OTP are refused with nothing changed; a right one deletes exactly that challenge and enters its request without the fraud check |
| Retries.FailedAttemptsLeaveNoTrace | backend/src/payments/payments.service.ts:279-305 | For every pattern of serialization failures and any steps of other calls before each attempt and after the last failure, the state differs from one without the failed attempts in the attempt counter only |
| Retries.LoopIsOneAttempt | backend/src/payments/payments.service.ts:589-614 | Whatever others do before each attempt, the last included, the retry loop ends in the very state that its last attempt alone would have reached |
| Retries.ExhaustedLoopLeavesNoTrace | backend/src/payments/payments.service.ts:876-901 | After five failed attempts, with others stepping before each, the call throws and nothing has happened but what others did |
| Bank.Server.PostWithRetries | backend/src/payments/payments.service.ts:279-305 | The loop, with other calls running before each attempt, ends the call within five attempts, all but the last undone by a conflict; the state is that of one attempt, or of none when all failed; the throw after the loop is unreachable |
| Bank.Server.ExecuteTransferTx | backend/src/payments/payments.service.ts:308-552 | Statement by statement the internal transfer's transaction returns what the specification says, and on success leaves its tables |
| Bank.Server.ExecuteBeneficiaryTransferTx | backend/src/payments/payments.service.ts:617-836 | The same for the transfer to a beneficiary |
| Bank.Server.ExecuteMerchantPaymentTx | backend/src/payments/payments.service.ts:904-1067 | The same for the merchant payment |
| Bank.Server.Transaction | backend/src/payments/payments.service.ts:279-296 | With rollback on a throw, a transaction is the atomic step of the specification in tables and result |
| Bank.Server.DebitIfCovered | backend/src/payments/payments.service.ts:446-461 | The conditional decrement takes the amount exactly when the balance covers it and counts one row then |
| Bank.Server.ReserveTransferKey | backend/src/payments/payments.service.ts:317-405 | An existing key is answered from its row without a write; a new one gets an IN_PROGRESS row, or the key-conflict error when the database refuses its generated id |
| Bank.Server.ReserveKey | backend/src/payments/payments.service.ts:627-657 | The same for the other two routes, which compare the hash before the status |
| Bank.Server.ResolveDestination | backend/src/payments/payments.service.ts:684-713 | The account with the beneficiary's IBAN, else an external settlement account, else nothing |
| Bank.Server.ReadKeyForRisk | backend/src/payments/payments.service.ts:212-217 | The idempotency read before step-up changes no table and branches on COMPLETED |
| Bank.Server.SetChallenge | backend/src/payments/payments.service.ts:219-235 | A new challenge is stored under the user's Redis key and the call ends with the step-up error |
| Bank.Server.FetchChallenge | backend/src/payments/payments.service.ts:1069-1083 | A missing, unreadable or mismatched challenge refuses the call; a match goes on to its deletion |
| Bank.Server.CreditAccount | backend/src/admin/admin.service.ts:147-240 | The admin credit, statement by statement, is the specification's atomic step |
| Bank.Server.SetKyc | backend/src/admin/admin.service.ts:110-145 | The KYC update changes the profile's status and leaves an audit row to write |
| Bank.Server.RunAll | backend/src/payments/payments.service.ts:238-306 | Executing any schedule in place ends in the state of the step system's run |
| Ledger.BalanceTracksLedger | backend/prisma/schema.prisma:94 | In every run of the four posting routes, each account's balance is its balance at creation plus ledger credits minus ledger debits; zero at creation for accounts opened during the run |
| Ledger.MoveExplained | backend/src/payments/payments.service.ts:446-505 | One posting changes balance and ledger by the same amount on every account, both legs on one account included |
| Ledger.TotalIsConstant | backend/src/payments/payments.service.ts:723-774 | The total of all balances never changes in any run |
| Ledger.EveryTransactionHasTwoLegs | backend/src/payments/payments.service.ts:965-1019 | In every reachable state each transaction is POSTED and has one debit on its from-account and one equal credit on its to-account, in its currency, and no other entry exists |
| Ledger.CustomersStaySolvent | backend/src/admin/admin.service.ts:159-185 | Non-system accounts that start non-negative never go negative in any run |
| Ledger.StepChange | backend/src/admin/admin.service.ts:147-240 | Every step leaves the money alone, opens an empty account, or posts one allowed movement |
| Statements.ClosingIsAvailableBalance | backend/src/statements/statements.service.ts:34-63 | After any run, the closing balance of a statement reaching past the last entry is the available balance minus the balance at creation; exactly the available balance for accounts opened by registration |
| Statements.StatementFigures | backend/src/statements/statements.service.ts:34-63 | Opening plus credits minus debits is the closing balance, which is all the account received net up to the end of the last day |
| Statements.StatementDecides | backend/src/statements/statements.service.ts:9-28 | A statement is given exactly of the user's own customer account for two valid dates in order; each other case has its own error; its head shows the account's columns |
| Statements.PeriodHolds | backend/src/statements/statements.service.ts:30-63 | The period holds exactly the account's entries from the first moment to 23:59:59.999 UTC of the last day, the opening balance exactly those before it |
| Statements.StatementLines | backend/src/statements/statements.service.ts:65-82 | The listed lines are exactly the period's entries, newest first, each with its entry's side, amount, currency and time and its transaction's type, status and description, and add up to the printed totals |
| Statements.ClosingIgnoresFrom | backend/src/statements/statements.service.ts:30-63 | The closing balance does not depend on where the period starts |
| Statements.OpeningAfterClosing | backend/src/statements/statements.service.ts:30-40 | The next day's opening balance equals the closing balance exactly when the entries of the last millisecond's gap net to zero |
| Statements.GapCanHoldAnEntry | backend/src/statements/statements.service.ts:30-32 | An entry half a millisecond before midnight is in neither of two consecutive statements |
| Statements.MissedEntryIsReachable | backend/src/admin/admin.service.ts:147-240 | From every initial state with a system account and an active customer account there is a run whose admin credit is in the ledger and the balance and in neither of two consecutive statements |
| Statements.NothingInGap | backend/src/statements/statements.service.ts:30-32 | With whole-millisecond times that gap is empty |
| Statements.ChainAgrees | backend/src/statements/statements.service.ts:34-63 | In a chain of consecutive statements each closing balance is the next opening balance exactly when the gap between them nets to zero, and always with whole-millisecond times |
| Statements.ChainTelescopes | backend/src/statements/statements.service.ts:34-63 | The net totals of a chain and of its gaps lead from its first opening to its last closing balance; the totals alone do so exactly when the gaps net to zero |
| Statements.ChainPartitions | backend/src/statements/statements.service.ts:65-82 | The listings of a chain and its gaps hold every entry of the whole range exactly once; the listings alone do so exactly when the gaps are empty |
| Statements.WholeMillisecondsLeaveNoGaps | backend/src/statements/statements.service.ts:30-32 | With whole-millisecond times the gaps of every chain are empty |
| Statements.EntriesAlwaysHaveTxns | backend/src/statements/statements.service.ts:65-82 | The transaction each line looks up exists in every reachable state |
| Payees.BookIsKept | backend/src/beneficiaries/beneficiaries.service.ts:33-113 | In every run a beneficiary row never disappears and never changes customer or IBAN, IBANs stay normalised, and no customer has two rows for one IBAN |
| Payees.AddingBeneficiary | backend/src/beneficiaries/beneficiaries.service.ts:33-89 | `create` refuses a listed IBAN, reactivates an archived row under its old id, and otherwise adds exactly one row |
| Payees.RemovingBeneficiary | backend/src/beneficiaries/beneficiaries.service.ts:91-113 | `remove` archives the user's own listed row with its time, keeps its other columns and all other rows, and notes it; a missing, foreign or archived row is refused and no table changes |
| Payees.ArchivedTakesNothing | backend/src/payments/payments.service.ts:675-682 | An archived row takes no payment in any later state, whatever else runs, until a `create` reactivates it |
| Payees.NormalTwice | backend/src/beneficiaries/beneficiaries.service.ts:35 | Normalising an IBAN twice changes nothing |
| Payees.NormalIbanIs | backend/src/beneficiaries/beneficiaries.service.ts:35 | The normal IBAN is the given one without the white space around it, its small letters made capital |
| Routing.PaymentsAreRouted | backend/src/payments/payments.service.ts:407-445 | In every run each payment debited an active account of the paying user's own profile in the request's currency and credited what its route names (an own account, the account with the beneficiary's IBAN or an external settlement account, the merchant's settlement account), and the rows still show it |
| Routing.DebitsAreByOwners | backend/src/payments/payments.service.ts:659-674 | Every debit in the ledger of a non-system account is the payment of the user whose profile owns the account |
| Routing.ResolutionIsDecided | backend/src/payments/payments.service.ts:684-713 | With a scan of the whole table the payment stays inside the bank exactly when an active customer account has the IBAN and currency, and goes there; otherwise to an active external settlement account, or is refused when there is none |
| Routing.ConfirmedTransferKeepsIban | backend/prisma/schema.prisma:132 | A posted beneficiary transfer used the IBAN its row had at any earlier moment, such as when its challenge was issued, and the stored response shows it |
| Administration.KycIsUpdated | backend/src/admin/admin.service.ts:110-145 | A KYC update gives its subject the requested status, touches nobody else, and is noted as a verification exactly for verified; an unknown subject is refused without a change |
| Administration.UnverifiedCannotPay | backend/src/payments/payments.service.ts:248-258 | A user who is not verified stays so in every run until an update to verified is asked for, and until then each of his payments is refused as soon as it reads KYC |
| Administration.CreditRun | backend/src/admin/admin.service.ts:147-240 | An admin credit in RON to an active customer account moves the amount from the first active RON system account of the scan and writes exactly its rows; anything else is refused without a change |
| Administration.CreditPlanIs | backend/src/admin/admin.service.ts:147-178 | Which error an admin credit gets, exactly |
| Administration.RegistrationOpens | backend/src/auth/auth.service.ts:129-176 | Registration opens one active checking account in RON with nothing on it, for a profile that is not verified yet; a known user, a taken id or a taken IBAN refuses it without a change |
| Requests.CanonicalDeterminesRequest | backend/src/payments/payments.service.ts:60-100 | Two canonical strings are equal exactly when route, accounts, amount, normalised currency and description agree |
| Requests.CurrencyIsRon | backend/src/payments/payments.service.ts:266-269 | A request passes the currency check exactly when its currency is RON in any case with any white space around it, or absent on a transfer |
| Requests.ParsersInvertBodies | backend/src/payments/payments.service.ts:102-191 | Each parser inverts the body its route stores, in any member order, and rejects the bodies of the other two routes |
| Requests.ParsersReadExactly | backend/src/payments/payments.service.ts:102-191 | Each parser reads a body exactly from the objects that have its members, each in its place and of its type |
| Requests.RequestSurvivesStorage | backend/src/payments/payments.service.ts:223-230 | A request body written to JSON and read back has the same canonical string |
| Requests.ChallengeSurvivesStorage | backend/src/payments/payments.service.ts:223-230 | A stored challenge reads back as itself |
| Requests.RedisKeyInjective | backend/src/payments/payments.service.ts:220 | A Redis key determines the user and the challenge id |
| Json.RoundTrip | backend/src/payments/payments.service.ts:230 | Every JSON value that is printed is parsed back as itself |
| Json.QuoteRoundTrip | backend/src/payments/payments.service.ts:60-100 | A quoted string is read back exactly, escapes and control characters included |
| Json.StringifyInjective | backend/src/payments/payments.service.ts:60-100 | Different values print differently |
| Text.TrimTwice | backend/src/payments/payments.service.ts:244-246 | A trimmed key stays itself when the confirmation path trims it again |
| Text.TrimSplits | backend/src/payments/payments.service.ts:266 | Trimming takes away white space at both ends and nothing else |
| Text.ToFixed2Parses | backend/src/payments/payments.service.ts:531 | The two-decimal text of an amount reads back as that amount |
| Text.NumberTextParses | backend/src/payments/payments.service.ts:60-72 | A printed number reads back as the same amount wherever the text goes on |
| LegacyProofs.EveryRunIsSerial | _legacy_demo/backend/src/transactions/transactions.service.ts:22-171 | However the statements of any number of calls interleave under the locks, the committed tables are those of whole requests run one after another, each from its owner's active account; each job is the request of one call of its own that arrived and was answered accordingly, and each call answered as processed or refused for its risk has its job |
| LegacyProofs.CallsArrived | _legacy_demo/backend/src/transactions/transactions.service.ts:22-36 | A call's request is, in every run, the one that arrived under its number |
| LegacyProofs.StepKeeps | _legacy_demo/backend/src/transactions/transactions.service.ts:98-161 | Every statement keeps the lock invariant and commits at most one whole job |
| LegacyProofs.StaysSolvent | _legacy_demo/backend/src/transactions/transactions.service.ts:103-107 | No balance goes below zero in any run that starts without one |
| LegacyProofs.EachKeyMovesOnce | _legacy_demo/backend/prisma/schema.prisma:132 | Each key has at most one row, and the ledger holds under it exactly that row's movement: nothing, one debit, or a debit and an equal credit |
| LegacyProofs.MoneyIsConserved | _legacy_demo/backend/src/transactions/transactions.service.ts:225-264 | Balances plus all committed merchant payments keep their sum in every run |
| LegacyProofs.BalanceIsOpeningPlusLedger | _legacy_demo/backend/src/transactions/transactions.service.ts:130-158 | Each balance is the opening balance plus ledger credits minus ledger debits |
| LegacyAnswers.AnswersAreTrue | _legacy_demo/backend/src/transactions/transactions.service.ts:163-171 | Completed, pending, rejected and already-processed answers are given only for committed rows that say so |
| LegacyAnswers.UndisturbedRequest | _legacy_demo/backend/src/transactions/transactions.service.ts:22-171 | A request at an idle engine is answered within eleven statements, with the outcome and the whole effect of the reference definition |
| LegacyBank.Server.LockRow | _legacy_demo/backend/src/transactions/transactions.service.ts:99-112 | A row lock is granted exactly when no other transaction holds it |
| LegacyBank.Server.LockSourceRow | _legacy_demo/backend/src/transactions/transactions.service.ts:99-107 | Locking and checking the source is the specification's statement: wait, fail on a short balance, or go on |
| LegacyBank.Server.CreateTransaction | _legacy_demo/backend/src/transactions/transactions.service.ts:114-128 | The unique insertion waits for an open holder of the key and fails on a committed one |
| LegacyBank.Server.CommitWrites | _legacy_demo/backend/src/transactions/transactions.service.ts:146-160 | Commit publishes the written balances, row and entries and frees the locks |
| LegacyBank.Server.FindByIban | _legacy_demo/backend/src/transactions/transactions.service.ts:51-54 | The loop finds the account the specification finds: one of the scan with the IBAN, or none when none has it |
| LegacyBank.Server.RunAll | _legacy_demo/backend/src/transactions/transactions.service.ts:22-171 | Executing any schedule in place gives the step system's state and the books of a serial run of its own calls |
| Csv.ExportReadsBack | frontend/src/pages/StatementsPage.tsx:58-71 | The exported file parses (RFC 4180, section 2, LF between records) to the headers and the statement's rows exactly when no field holds a quote |
| Csv.ExportColumns | frontend/src/pages/StatementsPage.tsx:60-71 | Under each head of a clean export, by name, a reader finds that column of the line |
| Csv.TableReadsBack | frontend/src/pages/StatementsPage.tsx:71 | The same for the table of quoted fields, whatever its shape |
| Csv.WrappedField | frontend/src/pages/StatementsPage.tsx:71 | A field in undoubled quotes is read back as itself exactly when it holds no quote |
| Csv.ExportDeterminesRows | frontend/src/pages/StatementsPage.tsx:58-71 | Statements without quotes that export to the same text have the same rows |
| Csv.QuotesMakeItAmbiguous | frontend/src/pages/StatementsPage.tsx:71 | Any two lines export to the same file as one line whose description holds quotes |
| AmountRule.AcceptedIsWholeCents | backend/src/payments/dto/create-transfer.dto.ts:17-48 | Within the bounds the validator accepts a number exactly when it is a whole number of cents |
| AmountRule.ValidatorAlone | backend/src/payments/dto/create-transfer.dto.ts:19-29 | What the validator alone accepts: at most two decimals in plain notation, one digit in exponent notation |
| AmountRule.BoundIsNeeded | backend/src/payments/dto/create-transfer.dto.ts:43-48 | 1e-7 passes the validator and is not a whole number of cents; the minimum refuses it |
| AmountRule.AcceptedText | backend/src/payments/dto/create-transfer.dto.ts:17-48 | An accepted amount prints as its number of cents |
| AmountRule.AcceptedTexts | backend/src/payments/dto/create-transfer.dto.ts:43-48 | The texts of the accepted numbers are those of 0.01 to 1e12 in whole cents, and no others |

## Left out

- P2002 recovery inside `executeTransferTx`: the branches that find a row for the user and key are unreachable when
  the transaction is one atomic step; the one that finds none is modelled.
- Notifications: two payment routes and the admin credit write them outside the transaction client.
- Audit metadata, `expiresAt` of keys (never read), `ledgerEntryId` and other columns no modelled code reads.
- Account and merchant status changes: no modelled route makes them; statuses are whatever the tables start with.
- Sessions, MFA, throttling, controllers, cards, customer listing and audit search: one-step reads and comparisons.
- Challenge time to live: a challenge may expire at any step instead of after 300 seconds.
- `Number()` and `toFixed(4)` in statements: sums are exact; the header figures are not rounded.
- Dates in a statement request arrive parsed; an invalid one is an input of the model.
- Upper-casing outside ASCII, and requests with amounts of 1e21 and above, which print in exponent form; the internal
  transfer refuses them, the beneficiary, admin and earlier-engine requests have no maximum.
- The amount validation of requests other than `CreateTransferDto`: it is a decorator of the validation library.
- The profile lookup and the beneficiary lookup of `create` are one step, as are the reads and the write of the KYC update; a KYC subject is named by its user.
- Registration is one step that opens an empty account; the rest of sign-up is not part of this model.
- Solvency of system accounts: the admin credit debits a system account without a balance check, so it does not hold.
- Deadlock freedom of the earlier engine: transfers lock source then destination and can deadlock; any open transaction may be aborted instead.
- Risk scoring of the earlier engine: the risk level is an input of each request.
- Account status changes and account removal in the earlier engine: not part of this model.
- Bank.Server.RunAll: Promise scheduling is modelled as an arbitrary interleaving of awaited statements; the two parallel reads inside one serializable transaction are part of its atomic step.
