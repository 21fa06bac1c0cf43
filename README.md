# Challenge solver loop: a Dafny model

This project models the solving loop of `agent.js`, a Playwright script. The script opens a page and works through up to 30 challenge slots. In each slot it waits for the page to settle. It then tries a fixed cascade of generic interactions: click the first enabled button, fill the first text input with `test-<i>` and press Enter, check the first checkbox, choose option 1 of the first select, and finally press Enter on the page. It books the outcome in a module-level `metrics` record. After every slot it stops once the wall-clock budget (`CONFIG.timeout`, 300000 ms) is exceeded. At the end it derives a token estimate of 400 per solved slot and builds a results object.

The browser is replaced by data. Each slot is a `Cascade.Slot` observation holding:

- whether the settling delay throws;
- four tri-state visibility probes (visible, hidden, probe threw), one each for the button, the text input, the checkbox and the select;
- whether the chosen interaction throws;
- the duration the clock reports for the slot.

`Date.now()` becomes input too: the start reading, one reading per slot taken by the timeout check, and the finish reading.

- `cascade.dfy` (module `Cascade`): strategy selection for one slot. `ResolveSlot` is the imperative cascade of `!success && visible` guards. It is proved equal to `Chosen`, defined independently as "the first strategy in `Priority` that applies". It also lists the interaction it invoked.
- `agent.dfy` (module `Agent`): the `metrics` object as class `Metrics`. `Run` sets the start stamp, runs the loop `SolveAll` with the timeout check after each slot, and wraps up with `Finish`. `Book` is the per-slot bookkeeping, written with all three of the code's branches, including the unsuccessful completion that can never occur. The loop is proved to leave exactly `Outcome`, which is `Replay` (a fold of `Step` over the attempted slots) cut at `Attempted` (the first slot at which the check fires, or 30). The bookkeeping, ordering and timeout properties are lemmas about `Replay`, `Attempted` and `Outcome`.

Three behaviours of the code are easy to misread. The model follows the code:

- The budget is checked after each slot, not before it. So the first slot always runs, even with a zero budget, and a slot that completes is recorded (`Agent.ZeroBudgetRunsFirstSlot`).
- A slot whose delay or action throws only increments `failed`. It pushes no record, so ordinals can have gaps. Records are never marked failed with strategy 'none'.
- The summary's `total` is always 30, whatever the number of slots attempted.

## Model

| member | source | states |
|---|---|---|
| `Cascade.FirstApplicable` | agent.js:61-94 | the index returned is of a strategy that applies, and every strategy before it in the priority order does not apply |
| `Cascade.ResolveSlot` | agent.js:57-94 | the imperative cascade yields exactly the specified attempt: it raises iff the delay or the chosen action throws, otherwise it completes with `success` true and a strategy that applies; it invokes at most one interaction, the chosen strategy's, and none when the delay throws |
| `Cascade.ChosenIsFirstApplicable` | agent.js:61-94 | the chosen strategy is `Priority[j]` if and only if `Priority[j]` applies and no earlier strategy applies (first match wins, both directions) |
| `Cascade.EarlierStrategyWins` | agent.js:62-88 | while an earlier strategy applies, no later strategy is chosen: a button beats a text input, a text input beats a checkbox, and so on |
| `Cascade.FallbackWhenNothingShown` | agent.js:90-94 | the Enter key-press is chosen if and only if none of button, text input, checkbox and select is visible |
| `Cascade.ProbeFailureIsHidden` | agent.js:61-88 | replacing every probe that threw by "hidden" changes neither the chosen strategy nor the slot's outcome: a throwing probe never aborts the slot |
| `Cascade.SameApplicabilitySameChoice` | agent.js:61-94 | two pages on which the same strategies apply get the same choice, from any point of the cascade on |
| `Cascade.Interaction` | agent.js:63-91 | the page interaction each strategy issues in slot `i`: a click for the button, a fill with `test-` followed by the decimal digits of `i` (then Enter) only for the text input, a check for the checkbox, option index 1 only for the select, and a page-level Enter only for the key-press fallback |
| `Cascade.AttemptOf` | agent.js:57-111 | how a slot's `try` ends: it raises when the delay or the chosen action throws; otherwise it completes successfully, with a strategy that applies (never 'none') and the slot's duration |
| `Cascade.Decimal` | agent.js:70 | the decimal rendering of the ordinal is non-empty, all digits, with no leading zero except for 0 |
| `Cascade.DecimalRoundTrip` | agent.js:70 | reading the decimal rendering back gives the ordinal |
| `Cascade.FillTextNamesOrdinal` | agent.js:70-71 | the text typed in slot `i` starts with `test-` and its remainder reads back as `i` |
| `Agent.StopAt` | agent.js:115-118 | from slot `i`, the loop stops at the first slot whose elapsed time exceeds the timeout, or at slot 30; no slot before it timed out |
| `Agent.AttemptedIsFirstTimeout` | agent.js:52-118 | the number of slots attempted is `n` if and only if the check fires after slot `n` (or `n` is 30) and fired after no earlier slot; hence 1 to 30 slots run |
| `Agent.Metrics.constructor` | agent.js:16-23 | a fresh `metrics` has no timestamps, zero counters, no records and zero tokens |
| `Agent.Step` | agent.js:96-111 | the bookkeeping after one slot: `solved + failed` grows by exactly one, the old records are kept as a prefix, one record with ordinal `i` is appended exactly when the slot completed, and `solved` grows only for a successful completion (the unsuccessful one, at 102-106, adds to `failed` and still pushes a record) |
| `Agent.Summarize` | agent.js:121-139 | the results object: `total` is 30 whatever the tally, solved, failed and records are copied, and when solved equals the number of records the token estimate is 400 per record |
| `Agent.Metrics.Book` | agent.js:96-111 | the `metrics` fields after slot `i` are `Step` of the old ones; the timestamps and token count are untouched |
| `Agent.Metrics.SolveAll` | agent.js:52-119 | the loop leaves `solved`, `failed` and `challenges` exactly as `Outcome` over the slots attempted before the post-slot check first fires; the other fields are untouched |
| `Agent.Metrics.Finish` | agent.js:121-141 | sets the end stamp, sets `tokensUsed` to 400 per solve, leaves the counters and records unchanged, and returns the results object of that state |
| `Agent.Metrics.Run` | agent.js:34-141 | the loop leaves `solved`, `failed` and `challenges` exactly as `Outcome` over the attempted slots; it sets both timestamps, sets `tokensUsed` to 400 per solve and returns the results summary of that state |
| `Agent.ReplayCounts` | agent.js:96-111 | after any number of slots, `solved` equals the number of records and `solved + failed` equals the number of slots run |
| `Agent.ReplayAppends` | agent.js:96-111 | a slot appends exactly one record, of its ordinal, its chosen strategy and duration, when it completes, and nothing when it raises |
| `Agent.ReplayRecordsMatch` | agent.js:96-100 | every record has an ordinal in 1..k, is marked successful, and carries the strategy chosen for its own slot (never 'none') and that slot's duration |
| `Agent.ReplayAscending` | agent.js:52-100 | record ordinals strictly increase |
| `Agent.ReplayRecordedIff` | agent.js:96-111 | ordinal `i` has a record if and only if slot `i` did not raise, so gaps appear exactly where a slot threw |
| `Agent.ReplayPrefix` | agent.js:98-111 | later slots only append: earlier records survive unchanged and the counters never decrease |
| `Agent.OutcomeBookkeeping` | agent.js:52-119 | at the end of the run `solved` equals the number of records, `solved + failed` equals the slots attempted (1 to 30), and no record has an ordinal after a slot at which the check fired |
| `Agent.ZeroBudgetRunsFirstSlot` | agent.js:52-118 | with a zero budget and time already elapsed, exactly one slot runs (`solved + failed == 1`); its record is the only one when it completes, and there is no record when it raises |
| `Agent.AllSolved` | agent.js:98-111 | when none of the first k slots throws, no failure is counted |
| `Agent.AllButtonsAllSolved` | agent.js:52-100 | thirty slots that each show an enabled button, never throw and stay in budget give 30 solved, 0 failed, and every record's strategy is button |
| `Agent.SummaryTokens` | agent.js:121-139 | the results report total 30 whatever was attempted, an estimated 400 tokens per record (at most 12000), and the elapsed time from start to finish |

## Left out

- Browser launch, `page.goto`, the 1500 ms load wait and the START-button click (agent.js:27-47): browser I/O. The model starts from an empty `metrics` object.
- Locator construction and the semantics of `isVisible`, `click`, `fill`, `press`, `check`, `selectOption` and `keyboard.press`: library calls. Each slot's observation says what they return, visible/hidden/threw for probes and ok/threw for the action. `fill` followed by `press` counts as one interaction that may throw.
- `Date.now()`: its readings are inputs. The proofs do not need the readings to be non-decreasing, so no such assumption is made.
- The 400 ms settling delay: only whether it throws is modelled.
- Floating-point formatting with `toFixed` (`successRate`, `totalTimeFormatted`, `avgPerChallenge`, `estimatedCost`) and the ISO timestamp.
- Console and stdout progress output, including the every-tenth-slot line, plus `fs.writeFileSync`, JSON serialisation and the outer `catch`/`finally` with `browser.close()`.
- Agent.Metrics.Run: requires a fresh `metrics` object, since the script runs the loop once on the module-level record. It uses the configured timeout of 300000 ms. The lemmas about `Outcome` hold for any timeout.
- Two runs over identical observations yield identical strategy sequences. This holds by construction, because `Outcome` is a function of its inputs. No separate lemma states it.
