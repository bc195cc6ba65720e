# Verified model of the Kovar agent gateway

The gateway stands between autonomous agents and Kovar, a paid model service. Agents register with a
signing key, are reviewed by administrators, bind a Kovar account, receive one dedicated key each, and
submit tasks whose estimated cost is charged against a daily and a monthly budget. Its promises are
promises about small transactions over shared rows, with any number of requests in flight, crashes at
any point, and upstream replies that are lost or late.

This Dafny project states those promises and proves them. Verify it with
`dafny verify dfyconfig.toml`.

## How it is built

Three layers repeat in most files.

* A class holds the rows that the Go code updates. Its methods are the transactions, branch by branch,
  and their contracts give the whole new state twice: on the rows' own columns, and through the small
  functions on values (`Keys.Finalized`, `Tasks.Finished`, `Idempotency.Completed`) that the machines share.
* A state machine interleaves those same functions: one event per transaction or SQL statement, for any
  number of requests, with crashes and with the choices of upstream left to the environment. Every agent
  table, every policy update and every stamp in a run is arbitrary unless a lemma says otherwise.
* An invariant, one lemma per conjunct and kind of step, and on top of it the main results about all runs:
  what never happens, and that an undisturbed call reaches its end (`KeyRuns.CreationCompletes`,
  `KeyRuns.DeletionCompletes`, `Ledger.RequestCompletes`, `Idempotency.CompletedIsReplayed`).

| file | what it holds |
|---|---|
| `Identity`, `Bindings` | agents, review, policies; the Kovar user of an agent |
| `Replay`, `RateLimit` | used nonces and request counters, both garbage collected on another clock |
| `Secure` | the texts that agents sign |
| `Budget`, `Calendar`, `Tasks`, `Outcome`, `Ledger` | budget check, UTC windows, task rows, upstream replies, and every interleaving of task requests |
| `Keys`, `Tokens`, `KeyRuns` | an agent's key row, identifying a created token, and every interleaving of creation and deletion |
| `Idempotency` | the wrapper around agent operations that write upstream |
| `Decimals`, `Pointers`, `Pricing`, `Routing` | exact prices, JSON pointers, quotes, rules |
| `Stream`, `Redact` | forwarding server-sent events; removing credentials from JSON |
| `Gateway` | all protocols over the one agent table |
| `Httpx`, `Strings`, `Json` | errors, the Go string operations used, JSON values |

## Assumptions

* Row locks are held to commit; a single SQL statement is atomic; the UNIQUE constraints of
  `migrations/001_initial.up.sql` hold. A task's stamp is when its transaction began, which is an
  arbitrary time before the lock is granted.
* Upstream never reuses a token id, applies a creation request at most once (it may apply it late, or
  never), answers truthfully (`KeyRuns.Truthful`), and only the gateway uses the token name of an agent.
* The SHA-256 hash is a parameter; only the shape of its output is used. A request says whether its
  signature is good.
* `big.Rat.SetString` is a parameter; only that it reads decimals exactly is used, and only where stated.

## Findings

* The nonce table forgets a used nonce one day after it expires. That is safe exactly as long as the
  gateway clock does not lag behind the database clock of an earlier cleanup by more than 86399 seconds,
  not 86400: rounding down to whole seconds costs one (`Replay.AcceptsOnceIff`).
* The request counter is exact if and only if the same lag is at most 119.5 seconds: the cast to `bigint`
  in the cleanup rounds to the nearest second (`RateLimit.CountsExactlyIff`).
* Replacing a secret by `[REDACTED]` removes a bracket-free secret from every text if and only if the
  secret is not part of the word REDACTED (`Redact.ReplacementIsEffectiveIff`).
* A wrapped operation that failed with a status below 400 would be replayed as a success; every other
  result is replayed as it was answered (`Idempotency.ReplayIsFaithfulIff`). No error that the gateway
  itself builds has such a status.

## Model

| member | source | states |
|---|---|---|
| Identity.Service.LockActive | internal/identity/service.go:125-134 | the policy is handed out exactly for an ACTIVE and APPROVED agent; a missing or revoked one is refused with its own error |
| Identity.Service.Create | internal/identity/repository.go:75-87 | an unknown agent enters as REGISTERED and PENDING with its policy, a known one is refused unchanged |
| Identity.Service.Review | internal/identity/service.go:236-265 | a review succeeds exactly when the remark has at most 1000 characters and the action is one of the five allowed in the agent's state, writes both columns and keeps the policy; otherwise nothing changes |
| Identity.Service.UpdatePolicy | internal/identity/service.go:191-210 | a non-negative policy of a known agent replaces the old one, anything else changes nothing |
| Identity.StatusErrorIff | internal/identity/service.go:103-114 | no status error is raised exactly for agents that may act |
| Identity.TransitionIff | internal/identity/service.go:211-235 | the five actions, each with the states that it is allowed in and the states that it leads to |
| Identity.ReachablePairs | internal/identity/service.go:211-235 | registration and review reach exactly five pairs of status and whitelist status, each of them by some run |
| Identity.RevokedAbsorbs | internal/identity/service.go:230-231 | a revoked agent stays revoked under all later reviews, registrations and policy updates |
| Bindings.Service.Bind | internal/binding/service.go:118-161 | an active agent is bound to a user, or its credential for the same user replaced; another user is refused |
| Gateway.UserNeverChanges | internal/binding/service.go:142-153 | over every run, the Kovar user of an agent never changes once bound |
| Replay.Service.Authenticate | internal/identity/service.go:135-176 | a request is accepted exactly when its timestamp lies within both ends of the window, its nonce has 64 hexadecimal digits and is unknown in lower case, it is signed, and its agent is ACTIVE and APPROVED; each failure has its own error and leaves the table unchanged, and an accepted nonce is stored as used until the timestamp plus the skew |
| Replay.AcceptedWasChecked | internal/identity/service.go:135-176 | over every run, each accepted request arrived signed, within both ends of its window, with a well-formed nonce, while its agent might act |
| Replay.CheckedIsAccepted | internal/identity/service.go:135-176 | nothing else is asked of a request |
| Replay.Service.ConsumeChallenge | internal/identity/repository.go:52-74 | a registration challenge is consumed exactly when it is the agent's own, unused and unexpired, and never twice |
| Replay.Service.Challenge | internal/identity/repository.go:48-51 | a fresh challenge is stored unused |
| Replay.Service.Cleanup | internal/identity/service.go:322-323 | exactly the nonces that expired more than a day ago are forgotten |
| Replay.TimelyIsNotForgotten | internal/platform/secure/secure.go:64-67 | with the lag bounded by 86399 seconds, a timestamp that is still in its window has not had its nonce forgotten |
| Replay.ResendAccepted | internal/identity/service.go:322-323 | for every larger lag, a run in which one request is accepted twice |
| Replay.AcceptsOnceIff | internal/identity/service.go:135-176 | over all runs with cleanups, a request is accepted at most once for all time if and only if the clock lag is at most 86399 seconds |
| RateLimit.Service.Rate | internal/identity/service.go:311-321 | the counter of the caller's minute starts at one, counts up and stays one above the limit, and the call is refused exactly above the limit |
| RateLimit.Service.Cleanup | internal/identity/service.go:322-323 | exactly the counters more than two minutes old, by the rounded database clock, are deleted |
| RateLimit.CountsExactlyIff | internal/identity/service.go:311-329 | the saturating, garbage-collected counter decides every call as an unbounded one, accepting min(calls, limit) per minute, if and only if the clock lag is at most 119.5 seconds |
| RateLimit.RecountAccepted | internal/identity/service.go:322-323 | for every larger lag, a run in which a minute with limit one accepts two calls |
| RateLimit.AcceptedIsMin | internal/identity/service.go:311-321 | deciding each call by the count before it accepts exactly min(calls, limit) |
| RateLimit.SpanBound | internal/identity/service.go:311-321 | any span of sixty seconds accepts at most twice the limit |
| Secure.PersonalMessageInjective | internal/platform/secure/secure.go:44-46 | two messages with the same signing preimage are equal, although the length may run into the text |
| Secure.SignedTexts | internal/platform/secure/secure.go:35-46 | the three texts, field by field |
| Secure.RegistrationInjective | internal/platform/secure/secure.go:35-37 | a registration text determines address, nonce and timestamp |
| Secure.CanonicalInjective | internal/platform/secure/secure.go:41-43 | a request text determines all its fields, the body up to its hash, and an arbitrary idempotency key |
| Secure.KindsNeverCollide | internal/platform/secure/secure.go:35-46 | no registration and no request have the same signing preimage |
| Budget.BudgetGuard | internal/task/router.go:284-301 | the subtracting 64-bit checks accept exactly when the true sums are within all limits, and blame the day or the month exactly when it is the first exceeded |
| Calendar.WindowsAreIntervals | internal/task/repository.go:45-49 | UTC days and Gregorian months are intervals that start at their truncation |
| Calendar.MonthBegins | internal/task/repository.go:45-49 | every stamp of a Gregorian month, leap years by the rule of 4, 100 and 400, is truncated to midnight of its first day |
| Calendar.DayBegins | internal/task/repository.go:45-49 | a stamp is truncated to the midnight before it |
| Tasks.Existing | internal/task/repository.go:30-44 | the row found has the agent's key, and none found means none exists |
| Tasks.Service.Summary | internal/task/repository.go:45-49 | both sums are those of the windows that begin with the day and the month of the transaction and have no end; with no row of the agent since the beginning of one, that sum is zero |
| Tasks.SummaryOfMore | internal/task/repository.go:45-49 | one more row changes each reported sum by exactly its cost if it is the agent's and stamped at or after the start of that window, and by nothing otherwise |
| Tasks.SumIsLastTotal | internal/task/repository.go:45-49 | a window's sum is the last of the running totals that count the agent's rows from its start on, and no others |
| Tasks.Service.Admit | internal/task/service.go:233-263 | the row is inserted exactly when the order is admissible on what is re-read under the lock; a known key with the same request returns its row, with another it conflicts, and nothing else is written |
| Tasks.AdmissibleIff | internal/task/service.go:233-263 | an order is admissible exactly when its agent may act, its key is new, and its estimate fits both quotas, the limit per request, and the daily and monthly limits on top of the running totals since the beginning of the day and of the month |
| Tasks.AdmitFresh | internal/task/service.go:233-263 | an affordable order of an active agent with a new key is inserted as CREATED, whatever was charged before the day began, as long as the month has room |
| Tasks.Service.Start | internal/task/service.go:338-359 | a task moves to RUNNING exactly when its agent is active and it was CREATED |
| Tasks.Service.Finish | internal/task/service.go:366-405 | an open row takes the status, result, usage, error and completion time it is settled with, keeps its provider unless given one, and gains its usage record unless it stays running; a terminal one is left alone |
| Outcome.SettlesProperly | internal/task/service.go:264-336 | however the call ended, the task is given an error code exactly when it failed or was cancelled, and stays running only as a video with a provider task |
| Outcome.SucceedsIff | internal/task/service.go:286-336 | a JSON reply succeeds exactly when it is valid, has readable usage, no error, and as a video an identified and completed provider task |
| Outcome.JsonSettledAs | internal/task/service.go:286-308 | what is kept of a JSON reply: nothing of an unreadable one, only the usage of one with an error, all of any other |
| Outcome.VideoSettledAs | internal/task/service.go:309-333 | a video keeps its provider task, reply and usage; queued or in progress it stays RUNNING, completed it succeeds, failed or unknown it fails with its own code |
| Outcome.StreamSettledAs | internal/task/service.go:494-511 | a stream keeps its usage however it ended, under a result that says it was streamed |
| Outcome.SettledWithoutJson | internal/task/service.go:268-285 | what is written for a broken call, a missing client, and audio and text replies |
| Outcome.PollSettledAs | internal/task/service.go:513-553 | a completed poll succeeds with the whole reply, a failed one fails without it, any other writes nothing |
| Outcome.CountsAreRead | internal/task/service.go:412-436 | token counts are read as written, and a negative one makes the usage unreadable |
| Outcome.PollProper | internal/task/service.go:513-553 | a poll settles a video only to a terminal status, with an error code exactly when it failed |
| Outcome.UsageRoundTrip | internal/task/service.go:412-436 | usage stored with a streamed result is read back unchanged |
| Outcome.OtherUsageNames | internal/task/service.go:425-430 | usage counted as input and output tokens is read the same way |
| Ledger.StepKeepsInv | internal/task/service.go:233-405 | every step of every request and poll keeps the ledger invariant |
| Ledger.BudgetHolds | internal/task/service.go:233-263 | in every reachable state, what is stamped in a day or a month totals at most the limit in force when the last of it was admitted, though stamps are taken before the lock and out of order |
| Ledger.BudgetUnderCap | internal/task/service.go:233-263 | if no policy of the agent exceeds a cap during a run, no window's charges do |
| Ledger.CallsAreSafe | internal/task/service.go:264-275 | for every agent and key the model is called at most once over all interleavings and crashes, each call after a committed row and a start committed while the agent might act, and the calls of a window stay within the cap |
| Ledger.TasksSettleOnce | internal/task/service.go:366-405 | a task is terminal iff it has exactly one usage record and a completion time, the record repeats its columns, an error code is present iff it failed or was cancelled, and recorded estimates total the terminal ones |
| Ledger.TerminalAbsorbs | internal/task/service.go:381-384 | a terminal row and its record never change again |
| Ledger.KeyKeepsItsTask | internal/task/repository.go:30-44 | an admitted key finds the same task ever after, with what was first asked |
| Ledger.InactiveStalls | internal/task/service.go:338-345 | no step admits or starts a task of an agent that may not act |
| Ledger.RequestCompletes | internal/task/service.go:233-336 | an undisturbed request with an admissible order is admitted under its begin stamp, started, sent once, and settled as its reply says, with its usage record |
| Tokens.Named | internal/client/kovarmanage/client.go:214-218 | the listed tokens with exactly the name asked for |
| Tokens.Identify | internal/client/kovarmanage/client.go:197-226 | the answered token when it is usable, otherwise the only listed one of the exact name, if its fields are complete; nothing exactly when there is no such token |
| Tokens.AnsweredIsIdentified | internal/client/kovarmanage/client.go:202-226 | a usable answer identifies its own token, if that is complete |
| Tokens.ListedIsIdentified | internal/client/kovarmanage/client.go:209-226 | otherwise a complete listing with exactly one complete token of the name identifies that one |
| Tokens.PrintableKey | internal/client/kovarmanage/client.go:233-238 | a printable key is full exactly when it is not empty and has neither asterisk nor space |
| Keys.Service.Reserve | internal/binding/service.go:181-220 | a key is reserved exactly for an active agent with valid options whose row is absent or DELETED |
| Keys.Service.Finalize | internal/binding/service.go:226-271 | only a CREATING row takes the token, as ACTIVE for an active agent and as DELETE_PENDING otherwise, and success means ACTIVE |
| Keys.Service.RecordKeyFailure | internal/binding/service.go:276-281 | a CREATING row becomes UNKNOWN, any other stays |
| Keys.Service.ReadForDelete | internal/binding/service.go:282-304 | for a known agent: nothing to do exactly when the row is absent or DELETED, a conflict exactly when another row names no token, and otherwise its token is to be deleted, an ACTIVE one in particular |
| Keys.Service.MarkDeletePending | internal/binding/service.go:305-313 | the row turns DELETE_PENDING and keeps its token |
| Keys.Service.MarkDeleted | internal/binding/service.go:325-335 | a row turns DELETED, losing its key, exactly when it still names the deleted token |
| KeyRuns.StepKeepsInv | internal/binding/service.go:181-336 | every step of every creation, deletion and upstream request keeps the key invariant |
| KeyRuns.IdentifiedIsOwn | internal/client/kovarmanage/client.go:207-226 | whatever truthful replies identify is the token of this very reservation |
| KeyRuns.OneTokenPerAgent | internal/binding/service.go:181-336 | in every reachable state at most one token of the agent is live upstream, DELETED means none is or will be, and an ACTIVE row names exactly the token of its own reservation |
| KeyRuns.OneOwner | internal/binding/service.go:207-217 | at most one call can still move a CREATING row, the one that reserved it |
| KeyRuns.UnknownIsAbandoned | internal/binding/service.go:276-281 | an UNKNOWN row belongs to no call |
| KeyRuns.AbandonedForever | internal/binding/service.go:207-217 | UNKNOWN, and CREATING without its call, are never left |
| KeyRuns.LateCompletion | internal/binding/service.go:325-329 | a deletion that completes after the row was reserved again changes nothing, one for the row's own token makes it DELETED |
| KeyRuns.DeletionCompletes | internal/binding/service.go:282-336 | from every reachable ACTIVE or DELETE_PENDING row, an undisturbed deletion ends with the row DELETED, its key gone, and no token live upstream |
| KeyRuns.CreationCompletes | internal/binding/service.go:181-275 | from every reachable row that is absent or DELETED, an undisturbed creation for an active agent ends with the row ACTIVE, its full key, and its token the only one live upstream |
| KeyRuns.InactiveGetsNoKey | internal/binding/service.go:242-250 | no step reserves a key or makes one ACTIVE for an agent that may not act |
| Idempotency.Service.Claim | internal/idempotency/service.go:24-53 | a new valid key is claimed with its hash; a known one conflicts exactly when the hashes differ, is in progress exactly when they agree and it is pending, and otherwise replays exactly the stored status and body |
| Idempotency.Service.Complete | internal/idempotency/service.go:57-70 | exactly a pending record is completed, once |
| Idempotency.Service.Handle | internal/app/server.go:382-425 | undisturbed, the operation runs exactly for a new valid key, and its status and body are stored and answered; the same request of a completed key is answered from the store without another run |
| Idempotency.HandleTwice | internal/app/server.go:382-425 | the same request twice runs the operation once and is answered the same twice, for every success and every error with a status of at least 400 |
| Idempotency.ReplayIsFaithfulIff | internal/app/server.go:393-404 | a stored result comes back as it was first answered, code and message included, if and only if it is not an error with a status below 400 |
| Idempotency.RunsOnce | internal/app/server.go:382-425 | over all interleavings and crashes an operation is run at most once per key, only for the request that claimed it, and every answer for the key is that of the one run |
| Idempotency.CompletedIsReplayed | internal/app/server.go:392-405 | in every interleaving, a repetition of a completed request is answered with the result of the one run |
| Idempotency.FirstIsRun | internal/app/server.go:406-425 | an undisturbed first request has the operation run, its result stored, and answered |
| Idempotency.CompletedNeverChanges | internal/idempotency/service.go:57-70 | a completed record never changes, and a key never changes its request |
| Idempotency.AbandonedIsNotRetried | internal/idempotency/service.go:22-24 | a key whose request is gone is neither run again nor answered |
| Decimals.ParseDecimalIff | internal/task/router.go:81 | reading accepts exactly the bounded decimal grammar, and each text stands for one decimal |
| Decimals.SpelledIsDecimal | internal/task/router.go:81 | every text of the pattern's shape is a decimal |
| Decimals.DecimalIsSpelled | internal/task/router.go:81 | every decimal has the pattern's shape |
| Decimals.PlainValue | internal/task/router.go:159 | without an exponent, a decimal is worth all its digits divided by ten for every digit after the point |
| Decimals.ShiftedValue | internal/task/router.go:159 | an exponent multiplies by its power of ten, a negative one divides |
| Pointers.Resolve | internal/task/router.go:130-146 | the loop over the pointer's parts finds what the unescaped tokens select, through objects and arrays |
| Pointers.NormalizePricing | internal/task/router.go:88-117 | an entry list becomes the map from each listed name to its last entry; anything else is unchanged |
| Pointers.UnescapeEscape | internal/task/router.go:132 | unescaping undoes escaping for every string |
| Pointers.PointerParts | internal/task/router.go:131-132 | a pointer recovers exactly the tokens it was built from, slashes and tildes included |
| Pointers.PointerFindsModel | internal/task/router.go:82-146 | the escaped pointer to a model's field finds that field of the last entry with the model's name |
| Pointers.PointerFindsField | internal/task/router.go:88-146 | that is the field itself when the entry has it, and null when it has not |
| Pointers.PointerFindsMember | internal/task/router.go:82-146 | a document that is keyed by model name already is left alone and looked up as it is |
| Pointers.IndexSelects | internal/task/router.go:136-142 | a token selects the array item whose index it prints, and null outside the array or below a scalar |
| Pointers.NamesIff | internal/task/router.go:94-104 | the models listed are those with a non-empty string as name |
| Pointers.RewrittenIff | internal/task/router.go:88-117 | the document is rewritten exactly when it is a list of objects and nulls that lists a model |
| Pointers.PointerMissesModel | internal/task/router.go:88-146 | a model that is not listed has no price |
| Pointers.ReorderingChangesNothing | internal/task/router.go:88-117 | reordering entries with distinct names leaves the document the same |
| Pricing.Quote | internal/task/router.go:119-262 | the stages in their order give the quote or the first obstacle to it, with no overflow in 64 bits on the way |
| Pricing.CapOutput | internal/task/router.go:185-205 | the loop over both limit names finds the one output limit of a chat |
| Pricing.OutputCap | internal/task/router.go:185-205 | an output limit is never negative nor above the rule's |
| Pricing.ReadCount | internal/task/router.go:167-184 | the count is the nested one, else the top-level one, else one |
| Pricing.Count | internal/task/router.go:167-184 | an accepted count is between one and ten |
| Pricing.CountIsRead | internal/task/router.go:167-184 | a printed count is read from either place, and exactly the counts from one to ten are accepted |
| Pricing.LimitIsRead | internal/task/router.go:185-205 | a chat may lower its output limit under either name and not raise it; without one the rule's limit holds |
| Pricing.TotalIsLeast | internal/task/router.go:253-261 | the product of rate, multiplier and units is rounded up to the least integer not below it, exactly when that fits 64 bits |
| Pricing.QuoteIsLeast | internal/task/router.go:253-261 | a quote is the least integer not below the exact cost, less than one above it, and exists exactly when the request can be priced and the exact cost fits 64 bits |
| Pricing.ValidatedQuote | internal/task/router.go:119-262 | for a validated rule the cost rounded up is price x multiplier x units, read as exact decimals |
| Pricing.QuoteIsPriceTimesUnits | internal/task/router.go:119-262 | with the price in the named field of the model's last entry, copies and output limit as the payload says them, and units counted by the rule's unit, the quote is n exactly when n - 1 < price x multiplier x units <= n and the input is not too long |
| Pricing.TokenQuote | internal/task/router.go:209-231 | units by token: copies x (bytes + output limit), for text tasks |
| Pricing.CharQuote | internal/task/router.go:232-237 | units by character: copies x characters of the input |
| Pricing.SecondQuote | internal/task/router.go:238-247 | units by second: copies x duration, positive and at most an hour |
| Pricing.CopyQuote | internal/task/router.go:248-249 | units by image or request: copies |
| Pricing.NoUnitsNoQuote | internal/task/router.go:206-252 | a request that has no units under the rule's unit is not quoted |
| Pricing.PriceIsFound | internal/task/router.go:127-155 | the price text is that of the named field of the last entry with the model's name |
| Pricing.QuoteGrows | internal/task/router.go:167-261 | with fewer bytes, copies or output tokens a request can be quoted whenever the larger one can, and for no more |
| Pricing.TokensFit | internal/task/router.go:231 | bytes plus output limit stay far below 64 bits |
| Routing.Validate | internal/task/router.go:45-75 | accepts exactly the rules that are all well formed and pairwise distinct on task type and model |
| Routing.RuleKeyInjective | internal/task/router.go:48 | the joined key of valid rules determines task type and model |
| Pricing.WellFormedRuleIff | internal/task/router.go:52-72 | the task types, units and bounds of a well-formed rule |
| Routing.Choose | internal/task/service.go:188-214 | the first rule that matches, quotes and passes the budget check, else the error of the last matching rule, else that nothing is configured |
| Routing.TriedAndUsed | internal/task/service.go:191-203 | a rule is tried when it is for the task type and an available model, the one asked for if any, and used when its quote is within all budgets |
| Routing.SelectsOne | internal/task/service.go:188-214 | that description determines the outcome |
| Routing.OrderDoesNotMatter | internal/task/service.go:188-214 | with an explicit model, choice, estimate and error are the same for every order of the rules |
| Routing.Prepare | internal/task/service.go:215-224 | the request sent names the chosen model, keeps every other member, and is given the rule's output limit exactly for a chat that has none |
| Routing.SentAsQuoted | internal/task/service.go:188-224 | the chosen rule is within budget and named in the request that is sent, and the output limit sent with a chat is the one its estimate was computed with |
| Stream.Scan | internal/task/service.go:453-493 | the loop stops at the first line that is bad, too much, or cannot be written, having written in order the redacted lines before it |
| Stream.Forward | internal/task/service.go:441-512 | what the client is written and what is concluded, for a wrong content type, a client that is gone at once, and every stream |
| Stream.FirstStopUnique | internal/task/service.go:458-493 | there is exactly one place where the loop stops |
| Stream.SucceedsIff | internal/task/service.go:494-511 | a stream succeeds exactly when no line and no write was bad, the scanner reported no error and the end marker was seen, and then every line was forwarded |
| Stream.TextSucceedsIff | internal/task/service.go:453-511 | the same on the text: every line within 32 MiB so far, not bad, and written, no scanner error, and an end marker |
| Stream.DataLineIs | internal/task/service.go:463-486 | which data lines are the end marker, nothing, bad, an error, or carry usage, whatever blanks surround the data |
| Stream.EndsBecause | internal/task/service.go:459-500 | why a stream failed: its size, the bad line's own code, the failed write, the scanner's error, or a missing end marker |
| Stream.ForwardsInOrder | internal/task/service.go:487-493 | the lines before the stop are written in order and once each, with the key replaced and a newline added |
| Stream.UsageIsLast | internal/task/service.go:477-484 | the usage recorded is that of the last usage event looked into, zero if that one was bad or there was none |
| Stream.UsageOnText | internal/task/service.go:477-484 | the same on the text, with the line stopped at looked into unless the reply became too large |
| Stream.NoKeyIsForwarded | internal/task/service.go:487-489 | no forwarded line contains the key of the call |
| Redact.RedactValue | internal/binding/redact.go:9-62 | the walk that deletes and overwrites entries computes the sanitized form, whatever the order of the entries |
| Redact.RedactFields | internal/binding/redact.go:30-47 | the same for one object, with its entries taken in any order |
| Redact.RedactItems | internal/binding/redact.go:48-60 | the same for one array |
| Redact.IsSensitive | internal/binding/redact.go:32-33 | a key is sensitive exactly when its lower-cased form contains one of the words or is one of the names |
| Redact.ReplacementIsEffectiveIff | internal/binding/redact.go:40 | a bracket-free secret is removed from every text if and only if it is not part of the word inside the tag |
| Redact.NoSecretSurvives | internal/binding/redact.go:9-62 | no string at any depth of the sanitized document contains a secret |
| Redact.NoSensitiveKeySurvives | internal/binding/redact.go:28-36 | no object at any depth keeps a sensitive key |
| Redact.CleanAt | internal/binding/redact.go:28-62 | at every path outside sensitive keys stands the sanitized form of what stood there, and nothing else was added or removed |
| Redact.StructureIsKept | internal/binding/redact.go:28-62 | outside sensitive keys numbers, booleans and nulls are unchanged, strings are scrubbed, arrays keep their length, and objects keep exactly their other keys |
| Redact.FirstIsReplaced | internal/binding/redact.go:40 | the first occurrence of a secret becomes the tag, what precedes it stays, and replacing goes on behind it |
| Redact.CleanTwice | internal/binding/redact.go:9-62 | sanitizing twice is sanitizing once |
| Gateway.InvariantsHold | internal/identity/service.go:123-134 | with review, policies and all protocols interleaved over one agent table, the ledger and every agent's key keep their invariants |
| Gateway.BudgetsHold | internal/task/service.go:229-263 | under policy updates, charges and calls of a window stay within the largest limit that was in force |
| Gateway.RevocationIsFinal | internal/identity/service.go:123-134 | after a revocation commits, no later step authenticates, binds, admits or starts a task, reserves a key or makes a key ACTIVE for the agent |
| Gateway.LateCallsWereStarted | internal/task/service.go:264-275 | after a revocation, the model is called only for tasks that were started before it |

## Left out

- HTTP serving, middleware, logging, configuration, start-up, migrations and deployment: plumbing without protocol state.
- Account, topup, wallet, PayGo and log pass-throughs, admin sessions and merged admin lists: thin wrappers.
- AES-GCM, bcrypt, secp256k1 recovery, Keccak, SHA-256 and HMAC: a request says whether its signature is good, a hash is a parameter, and a stored key stands for its ciphertext and fingerprint.
- JSON text parsing and printing: JSON is a datatype whose numbers keep their text, and a parser is a parameter where validity matters. Case-insensitive matching of struct fields, duplicate members and the normalisation of numbers by `jsonb` are not modelled.
- Message texts of errors: an error is its status and code, except in stored responses, where the message is kept.
- Audit rows, `last_seen_at`, `updated_at`, the review columns and the Kovar user id repeated in task and key rows: written, never read by a decision.
- Account and token quota across requests: both are snapshots read without a lock; nothing is claimed about them.
- `actual_cost`: the source never writes it, so the ledger sums estimates.
- Refresh of quota and expiry columns of a token: unlocked, and may write stale values.
- Random task ids: the position of a row stands for its id.
- Request validation against JSON schemas, image and multipart checks, and the list of models: a request that is refused there never reaches admission; it is one that stops after being quoted.
- Availability of admission: a task may be refused for any reason before it is admitted, so nothing is promised about acceptance in `Ledger` beyond `Tasks.Service.Admit`.
- `big.Rat.SetString` outside decimals, used for a video duration: an arbitrary reading, which must be positive and at most 3600.
- Aliasing in `redact`: objects and arrays are values, rebuilt entry by entry in the order of the loop, since a decoded document shares no parts.
- Lower-casing beyond the letters whose lower case is ASCII: no sensitive word has other letters.
- `Redact` of replies that are not streamed: `Create` replaces the key in the raw text once, which is the replacement that `Redact.ReplacementIsEffectiveIff` is about.
- The registration record of `Register` and the task record inserted by `Create`: they use the same idempotency table under their own operations, the first completed inside the registration transaction with status 201, the second inserted as completed.
- 32-bit overflow of `requests` in the rate table: it saturates one above the limit, so it would need a limit of 2^31 - 1.
- Wall clock before 1970 in `RateLimit`: times are not negative, where Go's division and the floor agree.
- Pricing.Quote: asks for the bounds on input bytes and output tokens that validation guarantees, because every rule is loaded through `LoadRouter`; with other rules the sum of bytes and output limit could wrap around.
- Routing.Choose: asks for the same bounds of every rule, for the same reason.
- Stream.Forward: asks for a non-empty key, because a stored key starts with "sk-"; replacing an empty one is not modelled.
