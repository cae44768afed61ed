# SingIt: what keeps late, repeated and crashed steps harmless

A Dafny model of the bookkeeping of a system that spends money on a user's behalf, and proofs about it. Each file
models one component:

| file | models |
|---|---|
| `operations.dfy`, `operation_runs.dfy` | the Telegram plugin's generation counters, active operations and chat slots, over every interleaving of their lock sections |
| `reply_queue.dfy` | the per-chat chain of delivery tasks |
| `wizard.dfy` | the purchase wizard: handlers, loaders and purchase workers that read and store one session at separate moments |
| `purchase_slots.dfy` | the wizard joined with the operation table: who gets the purchase slot and who still has it |
| `chat_setup.dfy` | the AI-budget setup and its approval worker |
| `buttons.dfy` | one-use button views and their printed and parsed payloads |
| `rate_limits.dfy` | the two sliding-window limiters |
| `one_shot.dfy` | the paid live check that may pay once in each of two directories |
| `release.dfy` | installing a set of files and rolling it back |
| `template_match.dfy` | comparing deployed code with a template that has holes |
| `payer_ledger.dfy`, `pagination.dfy`, `wallet_ledger.dfy` | counting payers, reading a chain page by page, crediting settlements to owners |
| `alerts.dfy` | the alert state machine |
| `builder_code.dfy`, `percentiles.dfy` | the ERC-8021 suffix and the nearest-rank percentiles |
| `common.dfy`, `text.dfy` | optional values, insertion-ordered dictionaries, runs of a state machine; numerals, fields and stripped text |

State that the source updates in place is a class whose methods are proved against a function on values; what every
interleaving keeps is proved about that function over event sequences. What the outside answers (the gateway, the
classifier, the payer, the clock, and in `wizard.dfy` whether a generation is current) is a parameter of the events, so
a theorem over event sequences holds for every answer. Fields called history in the comments exist only to state
properties.

What the proofs brought to light:

- **A generation granted twice misdelivers** (`OperationRuns.EvictionMisdelivers`). With 4096 tracked users, a newcomer
  makes the table forget the counter of a user whose superseded worker still runs. The user's next operation gets the
  same generation again: the stale result is sent, the current one is discarded. `StepKeepsExactIff` gives the exact
  condition: the protocol stays exact if and only if no generation is granted that an outstanding operation of the same
  user holds. A forgotten counter alone does no harm, and a run that forgets no outstanding user never reuses one.
- **A refused start leaves the budget setup stuck** (`ChatSetups.RequestStartsIff`). The setup is moved to its approving
  phase before the chat slot is asked for. When the slot is refused (another request in flight, or the limit of slots),
  none of its buttons asks for the approval any more, also after the slot is free again, although the user was told to
  try again. The one way out is choosing a model again with /model (`StuckIsFreedByModelChoice`, `EscapeRun`).
- **Navigation makes room for a second purchase** (`PurchaseSlots.TwoAtOnce`). While a purchase has its user's slot no
  other one gets it (`SlotExcludes`); after navigation, or another operation of that user, the next accepted order is
  granted although the first is still under way, and both may call. At most one of them is still current
  (`OneCurrentPurchase`).
- **A late clock reading shortens the guarded window** (`SlidingWindows.LagExact`). Both limiters read the clock before
  they take the lock, and an attempt prunes by its own reading. When readings reach the lock up to `lag` behind an
  earlier one, the windows that stay within the limits are exactly those no longer than the limiter's own less the lag.
  A limiter that forgot nothing would need no order at all (`ReplayBounded`).
- **An interrupted installation blocks every later one** (`Releases.DeployAgain`). A file that fails after its temporary
  file was created leaves it behind; the rollback does not remove it and the next run opens it as a new file.
  `Releases.Deploy` states exactly when an installation succeeds.
- **A demo whose gate found nothing is not held back** (`OneShotPayments.EarlyDemoPays`). The gate looks for the original
  attempt once. `GateExact` gives the dividing line: a demo through its gate rests on the settled original answer if and
  only if its gate found the attempt. One that looked before the attempt was made pays even when that attempt fails; the
  payer is never called more than twice.
- **An immutable without references never matches** (`TemplateMatch.MatchesExactly`): an empty group is refused, so the
  comparison is "some immutable values explain this code" only when every group is nonempty.
- **A trailing newline passes the code pattern** (`BuilderCodes.NewlinePasses`), because `$` also matches before it. It
  does no harm where the setting is stripped first, as `LoadDataSuffix` states.
- **Summed payers are different payers only for disjoint chains** (`PayerLedger.SumIsUnionIff`), which the report's own
  note relies on.

## Model

| member | source | states |
|---|---|---|
| OperationTables.OperationTable.Reserve | hermes-plugins/sign402-wallet/__init__.py:5093-5118 | an active entry always carries its user's current generation; what is granted, refused and forgotten is `Reserved` of the old table |
| OperationTables.OperationTable.ForgetFirstIdle | hermes-plugins/sign402-wallet/__init__.py:5109-5112 | only the first tracked user without an active operation loses its counter, and the table stays coherent |
| OperationTables.OperationTable.Invalidate | hermes-plugins/sign402-wallet/__init__.py:5140-5146 | navigation advances the counter and takes the user's entry away, keeping the table coherent |
| OperationTables.OperationTable.Finish | hermes-plugins/sign402-wallet/__init__.py:5121-5137 | succeeds exactly for the operation that is still current, and ends only that entry |
| OperationTables.ReservedGrants | hermes-plugins/sign402-wallet/__init__.py:5093-5118 | a granted generation is larger than the user's counter was, and other users' entries are untouched |
| OperationRuns.StepKeepsGuarded | hermes-plugins/sign402-wallet/__init__.py:1691-1707 | each step keeps the chat slots equal to the users inside the guard, one operation each |
| OperationRuns.RunKeepsGuarded | hermes-plugins/sign402-wallet/__init__.py:1691-1707 | over every interleaving at most one chat worker a user is between entry and exit, and every exit path releases the slot |
| OperationRuns.StepKeepsExactIff | hermes-plugins/sign402-wallet/__init__.py:5093-5146 | a step keeps the generation test equal to "nothing superseded this operation", and all that rests on it, if and only if it does not grant a generation an outstanding operation of the same user holds |
| OperationRuns.RunIsExactIff | hermes-plugins/sign402-wallet/__init__.py:2203-2278 | generations are distinct, an ordinary result is sent iff it was not superseded, a preserved one exactly once, and no active entry is left without its operation, at every point of a run, if and only if the run never grants a held generation |
| OperationRuns.ReuseCanMisdeliver | hermes-plugins/sign402-wallet/__init__.py:2240-2263 | once a held generation is granted to an ordinary operation, or one held by a scheduled ordinary operation to any, some continuation delivers wrongly |
| OperationRuns.UnforgottenNeverReuses | hermes-plugins/sign402-wallet/__init__.py:5105-5114 | a run that forgets no outstanding operation's counter never grants a held generation |
| OperationRuns.EveryRun | hermes-plugins/sign402-wallet/__init__.py:2203-2278 | from start-up: the guard excludes on every run, and the generations are exact throughout a run iff it never reuses a held one |
| OperationRuns.EvictionMisdelivers | hermes-plugins/sign402-wallet/__init__.py:5105-5114 | a concrete run in which a forgotten counter makes the stale result sent and the current one discarded |
| ReplyQueues.Deliveries.EnqueueOnLoop | hermes-plugins/sign402-wallet/__init__.py:4589-4614 | the new reply is free to go iff every earlier one of its chat has ended, and the chains stay in order |
| ReplyQueues.Deliveries.Finished | hermes-plugins/sign402-wallet/__init__.py:4616-4621 | the done callback keeps the chains in order, leaves other chats' tails alone, and a chat whose callbacks have all run keeps none |
| ReplyQueues.UnblockedIff | hermes-plugins/sign402-wallet/__init__.py:4597-4604 | a reply may start if and only if every earlier reply of its own chat has ended, so chats never block each other |
| ReplyQueues.NextInTurn | hermes-plugins/sign402-wallet/__init__.py:4597-4614 | whatever may start is the chat's next reply in enqueue order |
| ReplyQueues.RunIsSound | hermes-plugins/sign402-wallet/__init__.py:4589-4621 | over every schedule each chat's replies are sent in the order they were enqueued |
| ReplyQueues.NoOverlapNoResidue | hermes-plugins/sign402-wallet/__init__.py:4589-4621 | two replies of one chat are never being sent together, and a drained chat keeps no tail |
| Texts.TrimTwice | hermes-plugins/sign402-wallet/__init__.py:3548-3549 | stripping a text leaves no outer space and is idempotent |
| Wizards.CommandMeans | hermes-plugins/sign402-wallet/__init__.py:4045-4071 | a typed order carries the words as typed and the one funded token its selector denotes |
| Wizards.MissingMeans | hermes-plugins/sign402-wallet/__init__.py:3403-3413 | the fields still asked for are the required ones not yet given |
| Wizards.BackFromSound | hermes-plugins/sign402-wallet/__init__.py:2795-2872 | Back leads only to a session that carries nothing the user did not ask for |
| Wizards.DispatchSound | hermes-plugins/sign402-wallet/__init__.py:2771-2982 | the main handler, acting on a session it read earlier, leaves only sound sessions and orders behind |
| Wizards.AcceptSound | hermes-plugins/sign402-wallet/__init__.py:2955-2964 | "Request approval" hands on exactly the order of a review that was shown |
| Wizards.ChoosePackageSound | hermes-plugins/sign402-wallet/__init__.py:3352-3397 | a chosen package asks for the recipient fields the product requires, or for none |
| Wizards.EnterRecipientSound | hermes-plugins/sign402-wallet/__init__.py:3400-3433 | the payment step is reached only with every required field filled in and no other |
| Wizards.ChooseTokenSound | hermes-plugins/sign402-wallet/__init__.py:3503-3530 | the stored review session is the one shown, complete and with the chosen token |
| Wizards.DetourKeepsOrder | hermes-plugins/sign402-wallet/__init__.py:4191-4228 | the delivery-email detour gives back the order it set aside, field for field |
| Wizards.ActSound | hermes-plugins/sign402-wallet/__init__.py:4231-4317 | whatever is answered, a step of any handler, loader or worker calls only for an order the user asked for and stores only sound sessions, the restore after an error included |
| Wizards.StepIsSafe | hermes-plugins/sign402-wallet/__init__.py:2721-2748 | the same for every event, typed orders, browsing and the assistant's stores included |
| Wizards.ActCallsOnce | hermes-plugins/sign402-wallet/__init__.py:4231-4271 | a piece of code that has called the gateway never comes back to a step that may |
| Wizards.RunIsSafe | hermes-plugins/sign402-wallet/__init__.py:2955-2964 | every interleaving keeps both |
| Wizards.PurchasesAreAsked | hermes-plugins/sign402-wallet/__init__.py:3503-3573 | over every run each purchase call carries the product, package, country, recipient and token of a review shown and accepted with "Request approval", all required fields filled in, or of a typed order and the one token its selector denotes; no message leads to two calls |
| Wizards.ReviewIsThePick | hermes-plugins/sign402-wallet/__init__.py:3352-3521 | the reviewed token and the package handed on are the numbered ones of the session's own lists, beside what the session already held |
| Wizards.AnyOrderCanBePlaced | hermes-plugins/sign402-wallet/__init__.py:3281-4271 | every order a user can type in, whatever recipient fields the product requires, can be reviewed, accepted and placed, through the delivery-email detour, as the only call |
| PurchaseSlots.RunsBoth | hermes-plugins/sign402-wallet/__init__.py:3534-3573 | every run of the join is a run of the wizard beside a run of the lock sections, so what is proved of either holds of the join |
| PurchaseSlots.StepKeepsLinked | hermes-plugins/sign402-wallet/__init__.py:3545-3573 | every step keeps each tracked piece of purchase code on an operation of its own, in the matching phase |
| PurchaseSlots.OneCurrentPurchase | hermes-plugins/sign402-wallet/__init__.py:5093-5137 | over every run that grants no held generation again, of two purchases of one user under way at once at least one was superseded |
| PurchaseSlots.SlotExcludes | hermes-plugins/sign402-wallet/__init__.py:5096-5100 | from any state: once a purchase is granted the slot, and until its worker has ended, no other purchase of that user is, unless the user navigates or starts another operation |
| PurchaseSlots.NavigationFrees | hermes-plugins/sign402-wallet/__init__.py:5140-5146 | after navigation the next accepted order is granted, and the earlier purchase is under way but superseded |
| PurchaseSlots.TwoAtOnce | hermes-plugins/sign402-wallet/__init__.py:3545-3573 | a run from start-up, for any order of a product without recipient fields: accepted, called, navigated away from and accepted again, it has two purchases under way, both of which have called |
| ChatSetups.TapIsSound | hermes-plugins/sign402-wallet/__init__.py:1615-1640 | the buttons keep a reviewed cap equal to the one shown and among those offered |
| ChatSetups.CallIsSound | hermes-plugins/sign402-wallet/__init__.py:1641-1649 | the approval request carries the cap last shown and accepted |
| ChatSetups.TakeIsSound | hermes-plugins/sign402-wallet/__init__.py:1653-1660 | the question is taken once, with its setup current and approved |
| ChatSetups.WorkIsSound | hermes-plugins/sign402-wallet/__init__.py:1641-1661 | every step of the approval worker keeps the invariant, whatever happened to the setup in between |
| ChatSetups.StepIsSound | hermes-plugins/sign402-wallet/__init__.py:1520-1547 | so do cancelling, replacing and expiring, and every message |
| ChatSetups.RequestsCarryTheReviewedCap | hermes-plugins/sign402-wallet/__init__.py:1615-1663 | over every run an approval request carries the cap last shown on that setup's review screen, which is the one accepted and one of three |
| ChatSetups.QuestionsAreSentOnce | hermes-plugins/sign402-wallet/__init__.py:1646-1661 | over every run a saved question is sent at most once, unchanged, only after approval, never for a cancelled, replaced or expired setup; a question taken for sending is sent |
| ChatSetups.AnySetupCanBeApproved | hermes-plugins/sign402-wallet/__init__.py:1615-1663 | each offered cap can be asked for and approved, and the saved question is then sent |
| ChatSetups.RequestStartsIff | hermes-plugins/sign402-wallet/__init__.py:1640-1663 | tapping "Request budget approval" gets a request under way iff the chat slot is free and granted; otherwise the setup is stuck |
| ChatSetups.StuckUntilModelChoice | hermes-plugins/sign402-wallet/__init__.py:1623-1640 | over every run without a new model choice (time, every button, other work, cancelling, replacing, expiring) a stuck setup's approval is not asked for |
| ChatSetups.StuckIsFreedByModelChoice | hermes-plugins/sign402-wallet/__init__.py:1608-1640 | a stuck setup that is still there can have each offered cap asked for, and every run that asks for it chooses a model |
| ChatSetups.EscapeRun | hermes-plugins/sign402-wallet/__init__.py:1774-1777 | a run from start-up: a refused start, the slot freed, /model, and the approval asked for |
| ButtonViews.Number | hermes-plugins/sign402-wallet/telegram_ui.py:46-54 | each button's callback data carries its place in row-major order |
| ButtonViews.ButtonSessions.Render | hermes-plugins/sign402-wallet/telegram_ui.py:43-62 | expired views go, the oldest makes room, the number of views stays within the limit, the new view holds the markup's actions |
| ButtonViews.ButtonSessions.Bind | hermes-plugins/sign402-wallet/telegram_ui.py:64-71 | a message is bound only to the view whose nonce its first button carries |
| ButtonViews.ButtonSessions.Claim | hermes-plugins/sign402-wallet/telegram_ui.py:73-86 | a claim removes the view it succeeds on, and otherwise changes nothing |
| ButtonViews.ButtonSessions.Invalidate | hermes-plugins/sign402-wallet/telegram_ui.py:39-41 | the chat's view is gone, the others stay |
| ButtonViews.ChoiceAt | hermes-plugins/sign402-wallet/telegram_ui.py:46-53 | the action of cell (row, column) is the choice numbered by the buttons above and before it |
| ButtonViews.ClaimExact | hermes-plugins/sign402-wallet/telegram_ui.py:73-86 | a claim succeeds if and only if the view is unexpired, bound to the message, and the payload is its nonce with the number of a choice |
| ButtonViews.CellRoundTrip | hermes-plugins/sign402-wallet/telegram_ui.py:43-86 | rendered and bound, the button at (row, column) claims exactly that cell's action and source |
| ButtonViews.StepConserves | hermes-plugins/sign402-wallet/telegram_ui.py:39-86 | claims plus views holding a nonce never grow except by a render |
| ButtonViews.ClaimsConserved | hermes-plugins/sign402-wallet/telegram_ui.py:39-86 | over every run a nonce is claimed at most as often as it was held or rendered: a view is one-use |
| ButtonViews.Retired | hermes-plugins/sign402-wallet/telegram_ui.py:39-86 | after a claim, an invalidation or a newer render in that chat the nonce is never claimed again |
| Texts.ParsePrint | hermes-plugins/sign402-wallet/telegram_ui.py:53-83 | parsing a printed index gives it back |
| Texts.SplitJoin | hermes-plugins/sign402-wallet/telegram_ui.py:80-82 | splitting joined fields without the separator gives them back |
| Texts.JoinSplit | hermes-plugins/sign402-wallet/telegram_ui.py:80-82 | joining the split fields gives the text back |
| SlidingWindows.AdmittedKeepsBounded | hermes-plugins/sign402-wallet/assistant.py:186-189 | an admission decided on the last W seconds of the whole history keeps every half-open window of length W within both limits, in whatever order the clock was read |
| SlidingWindows.ReplayBounded | hermes-plugins/sign402-wallet/assistant.py:180-194 | over every sequence of requests and clock readings no window holds more than the limits allow |
| SlidingWindows.InOrderAgrees | hermes-plugins/sign402-wallet/assistant.py:180-189 | when the readings reach the lock in order, the pruned lists admit exactly what the whole history would |
| SlidingWindows.LagKeepsBounded | hermes-plugins/sign402-wallet/__init__.py:897-914 | with readings at most `lag` late, the pruned lists keep every window of length W less the lag within both limits |
| SlidingWindows.LagExact | hermes-plugins/sign402-wallet/__init__.py:897-930 | for every lag up to W: the windows of a given length stay within the limits over all such runs if and only if the length is at most W less the lag |
| RateLimiters.ClassificationLimiter.Attempt | hermes-plugins/sign402-wallet/assistant.py:186-191 | for any clock reading: decided on the admissions still recalled (12 a user, 120 overall, 60 s), which is the decision on the whole history if no earlier attempt read a later time |
| RateLimiters.RegistrationLimiter.Prune | hermes-plugins/sign402-wallet/__init__.py:902-914 | both lists hold the same recent admissions, and a user without any has no entry |
| RateLimiters.RegistrationLimiter.Attempt | hermes-plugins/sign402-wallet/__init__.py:890-930 | for any clock reading: both lists decide on the admissions still recalled (3 a user, 120 overall, 3600 s), which is the decision on the whole history if no earlier attempt read a later time; the refusal reasons are told apart |
| RateLimiters.RegistrationLimiter.GlobalIsAllLists | hermes-plugins/sign402-wallet/__init__.py:916-930 | in every valid state of the limiter its global list is the multiset union of its per-user lists |
| TemplateMatch.MaskedInPlace | agent-allowance/script/export_artifact.py:64-68 | the byte-slice loop computes `Masked`, clamped and appending as Python slices do |
| TemplateMatch.MaskedAt | agent-allowance/script/export_artifact.py:64-68 | masking zeroes exactly the covered bytes, whatever the order of the ranges |
| TemplateMatch.ExportCovers | agent-allowance/script/export_artifact.py:53-60 | the exported flat ranges cover a byte iff some immutable's reference does |
| TemplateMatch.GroupsAgree | agent-allowance/script/export_artifact.py:53-60 | the exported groups hold one value each iff the compiler's references do |
| TemplateMatch.MatchesExactly | agent-allowance/script/export_artifact.py:71-83 | a code is accepted if and only if it has the template's length, no group is empty, and some assignment of one byte string a group explains it |
| Percentiles.BothPickThePercentile | scripts/daily-metrics.py:168-173 | both functions pick the same element: at least p percent of the values are at most it, and that holds of nothing smaller |
| BuilderCodes.NewlinePasses | sign402-gateway/sign402_gateway/base_builder_code.py:39-43 | the code pattern accepts the clean codes and, besides them, exactly a clean code with one newline after it |
| BuilderCodes.LoadDataSuffix | sign402-gateway/sign402_gateway/base_builder_code.py:55-74 | attribution is enabled exactly for a setting that strips to 1 to 32 allowed characters |
| BuilderCodes.AcceptsExactly | sign402-gateway/sign402_gateway/base_builder_code.py:98-124 | on the hexadecimal text of some bytes the parser accepts if and only if they are a well-formed body and the ERC-8021 tail |
| BuilderCodes.EncodedAcceptedAlone | sign402-gateway/sign402_gateway/base_builder_code.py:46-52 | an encoded suffix is accepted, and with anything before it, a second suffix included, it is not |
| BuilderCodes.SchemaZeroIsOneCode | sign402-gateway/sign402_gateway/base_builder_code.py:109-115 | a schema 0 body is exactly one nonempty code with its length (Specification section of ERC-8021) |
| BuilderCodes.AppendLaws | sign402-gateway/sign402_gateway/base_builder_code.py:77-95 | appending keeps the calldata in front, ends it in the suffix, is idempotent, and is the identity off Base |
| BuilderCodes.AppendedIsRecognised | sign402-gateway/sign402_gateway/base_builder_code.py:77-124 | what was appended to whole calldata is recognised after it |
| BuilderCodes.UnhexHex | sign402-gateway/sign402_gateway/base_builder_code.py:103-108 | decoding encoded bytes gives them back |
| PayerLedger.Aggregate | scripts/unique-payers.py:579-651 | the overall figures are the sum of the merchants' own, payers as a union |
| PayerLedger.AddTransfer | scripts/unique-payers.py:595-632 | one transfer adds its single contribution to a total |
| PayerLedger.Conservation | scripts/unique-payers.py:595-632 | every transfer is exactly one of dropped, unattributed, unavailable, zero-value, excluded or counted, and the counters are those numbers |
| PayerLedger.PayersExact | scripts/unique-payers.py:615-623 | the payers are exactly those of counted payments |
| PayerLedger.OrderDoesNotMatter | scripts/unique-payers.py:595-632 | the result does not depend on the order of the transfers |
| PayerLedger.FilteredIsWithin | scripts/unique-payers.py:601-603 | an amount-filtered report never exceeds the unfiltered one |
| PayerLedger.CombineChainReports | scripts/unique-payers.py:659-715 | combining chains adds their counts and their rounded totals, widens the date range, and sums the payers |
| PayerLedger.RoundingDrift | scripts/unique-payers.py:575-576 | rounding each chain to six decimals before adding moves the total by at most half a millionth a chain, and not at all for whole millionths |
| PayerLedger.WholeTotals | scripts/unique-payers.py:173-174 | payments in whole millionths make every total one |
| PayerLedger.SumIsUnionIff | scripts/unique-payers.py:654-656 | the summed payer count is the number of different payers if and only if no two chains share one |
| Pagination.LogChunks | scripts/unique-payers.py:373-389 | the ranges request every block of the interval once, in order, none longer than the chunk size and only the last shorter; a size below 1 is refused |
| Pagination.PageAfter | scripts/unique-payers.py:448-453 | a page after the last signature seen continues exactly there |
| Pagination.YieldPage | scripts/unique-payers.py:454-460 | a page yields its entries up to the first old one |
| Pagination.OnePage | scripts/unique-payers.py:446-463 | each page extends the yielded prefix, and ends the iteration only with the whole recent history |
| Pagination.IterSignatures | scripts/unique-payers.py:436-465 | what is yielded is a prefix of the history before the first entry older than `since`, and all of it unless it raises for a missing cursor or too many pages |
| Pagination.FetchTransactions | scripts/unique-payers.py:553-565 | over all token accounts each signature is fetched at most once, and exactly when its first mention did not fail |
| WalletLedger.OwnerOf | scripts/external-wallets.py:238-249 | the loop picks the owner that `OwnerAt` describes |
| WalletLedger.ChosenIsLatest | scripts/external-wallets.py:238-249 | the chosen limiter is the user's own and not rejected: the latest created at or before the payment if there is one, else the user's first |
| WalletLedger.ReadBase | scripts/external-wallets.py:212-286 | every wallet shows exactly what was credited to its owner, can be excluded by any key of a credited user, and the rest is counted as unattributed |
| WalletLedger.EarnedConserved | scripts/external-wallets.py:260-275 | every settlement of the window is credited to exactly one owner or unattributed, and the amounts add up |
| WalletLedger.ReportConserves | scripts/external-wallets.py:349-363 | whatever is excluded, external plus excluded plus unattributed counts are the settlements of the window, and external plus excluded amounts are its amounts less the unattributed ones |
| OneShotPayments.MarkIsSound | sign402-gateway/scripts/graph-live-check.py:224-236 | creating the attempt marker keeps at most one owner a directory, before any payment there |
| OneShotPayments.PaymentIsSound | sign402-gateway/scripts/graph-live-check.py:237-239 | calling the payer keeps one payment a directory |
| OneShotPayments.SavingIsSound | sign402-gateway/scripts/graph-live-check.py:240-247 | the stored result is the payer's answer and is never replaced |
| OneShotPayments.GateStepIsSound | sign402-gateway/scripts/graph-live-check.py:97-110 | a demo that found the original attempt passes only on its reconciled, settled result |
| OneShotPayments.StatusStepIsSound | sign402-gateway/scripts/graph-live-check.py:134-163 | recovering a check writes only what the stored result and a settled transfer prove |
| OneShotPayments.StepIsSound | sign402-gateway/scripts/graph-live-check.py:166-273 | any step, crash or new invocation keeps all of this |
| OneShotPayments.PayerCalls | sign402-gateway/scripts/graph-live-check.py:187-239 | over any invocations, interleavings and crashes the payer is called at most once per directory and at most twice in all, on prepared terms |
| OneShotPayments.GateExact | sign402-gateway/scripts/graph-live-check.py:97-110 | over every run a demo through its gate was let through on the original attempt's answer, ok, status 200 and settled, if and only if its gate found that attempt |
| OneShotPayments.DemoAfterAttempt | sign402-gateway/scripts/graph-live-check.py:97-110 | a demo whose gate found the original attempt, in particular one started after it, pays only if that attempt's payer call answered ok, status 200, with a settled transaction |
| OneShotPayments.EarlyDemoPays | sign402-gateway/scripts/graph-live-check.py:174-188 | a reachable state in which a demo whose gate found no attempt paid beside an original attempt that failed |
| Releases.ProductionState | scripts/apply-ask-models-release.py:99-111 | the two counters tell "every file as expected" and "every file already installed" apart from anything else |
| Releases.InstallOne | scripts/apply-ask-models-release.py:128-138 | one file is replaced as a whole or left alone, with at most its temporary file behind |
| Releases.Install | scripts/apply-ask-models-release.py:126-138 | exactly a prefix of the files is replaced; it completes iff no step fails and no temporary file existed |
| Releases.Restore | scripts/apply-ask-models-release.py:141-155 | exactly a prefix of the files gets its earlier content back or is removed, all of them when no step fails |
| Releases.PartlyKeeps | scripts/apply-ask-models-release.py:126-138 | after any prefix no manifest file is torn and no other file changed |
| Releases.RevertedKeeps | scripts/apply-ask-models-release.py:141-155 | from any mixture of earlier and new files a full restore leaves every file as it was before |
| Releases.Deploy | scripts/apply-ask-models-release.py:201-248 | all or nothing under a failure at any step, nothing outside the manifest and its temporary names touched, and exactly when it succeeds |
| Releases.DeployAgain | scripts/apply-ask-models-release.py:131-134 | a run that failed while writing a file makes the next, faultless run fail too |
| Alerts.Triage | scripts/singit-health-alert.py:276-304 | the loop says and remembers what `Said` and `Remembered` describe |
| Alerts.Alerter.Check | scripts/singit-health-alert.py:420-435 | the saved state moves on only when the message got through |
| Alerts.CheckIsSummarised | scripts/singit-health-alert.py:276-304 | after a delivered pass each check is remembered as what was last said about it |
| Alerts.StepKeepsSummary | scripts/singit-health-alert.py:420-435 | every pass, delivered or not, keeps the saved state a summary of the delivered messages |
| Alerts.EveryRun | scripts/singit-health-alert.py:276-435 | over every sequence of passes recoveries answer alerts, episodes open with one alert, and the state is a summary of what was delivered |
| Alerts.RepeatedAlerts | scripts/singit-health-alert.py:292-303 | two alerts of one episode are never of a `once` check and are the repeat interval apart |
| Alerts.DeliveredIsTrue | scripts/singit-health-alert.py:420-435 | after a delivered pass the last word about every check looked at is the truth |
| Alerts.UndeliveredIsRetried | scripts/singit-health-alert.py:428-434 | an undelivered pass changes nothing and its messages are said again by any later pass that sees the same |

## Left out

- Assistant slots: `resolve_followup`, `merge_slots`, `repeat_pending` and `wizard_owns_text` are short decisions on values; the assistant appears as arbitrary stores of browsing sessions and as its limiter.
- The per-user access token cache, the withdrawal and iMessage sessions, message wording and keyboards.
- `read_solana`, the granted flag, first-seen outflows and short ids of the wallet report; `normalize_solana_transaction`; the other sections of the daily and uptime reports.
- HTTP, RPC, Telegram, systemd, SQLite, hashing and signing: their answers are parameters, a hash is compared as the content it stands for, and addresses are taken as normalised.
- Cancelling a delivery task: the delivery chain is modelled for tasks that run to an end, well or not.
- A crash of the alerter between delivering a message and saving its state, a state file that does not parse, and the dry run.
- Killing the installer outright: `Releases.InstallOne` and `Releases.Install` say what any prefix leaves, but no rollback follows a killed process.
- Wizards.DispatchSound: the browsing handlers (country, search, category, pages) only store browsing sessions, so their stores are events that may happen at any time; which list is shown is not modelled. The review message prints the product's name, the package's label, the token's symbol and the recipient; the model records the order behind it.
- Wizards.EnterRecipientSound: the source changes the session dictionary in place; sessions are values here, so a handler still holding the old dictionary does not see the new recipient. It never reads it again.
- Wizards.CommandMeans: letter case is folded for ASCII letters only, and the country word is taken already in capitals.
- PurchaseSlots.OneCurrentPurchase: the loads of the wizard answer freely, as in `Wizards`; their reservations are among the other operations. The purchase's own message is sent whether it is current or not.
- ChatSetups.StepIsSound: message handlers run one after another, as on the plugin's event loop, with the worker's steps in between; the one-slot-per-user guard is the one proved in `OperationRuns`. A setup opened in another chat of the same user is not modelled.
- ButtonViews.ClaimExact: the nonce holds no colon, as URL-safe random text does not; digits are ASCII, where Python's `isdigit` also accepts other scripts' digits.
- TemplateMatch.MatchesExactly: the sorting of ranges and groups in `build` is modelled as any rearrangement, and hex text as already decoded or unreadable.
- Percentiles.BothPickThePercentile: percentages and ranks are exact; floating-point rounding is not modelled.
- PayerLedger.FilteredIsWithin: amounts are compared before the reports round them to six decimals; rounding is modelled where chains are combined.
- Pagination.IterSignatures: the server answers with consecutive pieces of one newest-first history with distinct signatures; a history that grows between pages is not modelled.
- OneShotPayments.DemoAfterAttempt: promises nothing for a demo whose gate found no attempt; `EarlyDemoPays` shows that such a demo may pay beside a failed one.
- Releases.Deploy: no manifest name is the temporary name of another, and manifest names are distinct.
- Alerts.EveryRun: check names of one pass are distinct; two results under one name would be triaged against the same memory.
