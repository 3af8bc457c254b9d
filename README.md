# Price-alert checker: a verified model of `PriceAlertLogic`

This project models the spreadsheet-backed price-alert checker in
`classes/logic_price_alert.py`. Each run of the checker does four things:

1. It loads the alert sheet. Every row is a rule made of a ticker symbol, an
   operator token ("gt" or "lt") and a threshold.
2. It fetches market quotes for the rules' symbols, retrying after
   exceptions.
3. It checks every rule against its quote, in sheet order, and sends a chat
   message for every rule that fires or is malformed.
4. It rewrites the sheet as the header followed by the rules that did not fire.

The files and what each one covers:

- `alert_types.dfy` (`AlertTypes`): rows, quotes, chat messages and the
  ASCII upper-casing of symbols.
- `sheet.dfy` (`Sheet`): `get_google_alert_dataframe` as `Load`, plus the
  de-duplicated symbol list that `scan` requests.
- `validation.dfy` (`Validation`): `validate` as `Validate`, plus the
  first-match quote lookup (`.iloc[0]` on the filtered quotes).
- `failover.dfy` (`QuoteFetch`): `get_quote_with_failover`. It is given as a
  specification function `Failover` over a sequence of request outcomes,
  with a declarative retry policy proved of it. The loop itself is the
  method `GetQuoteWithFailover`, proved against that function.
- `reconcile.dfy` (`Reconcile`): one `scan` pass as the specification
  function `ScanPass`. Its lemmas cover the commit condition, the surviving
  rules, the abort on a missing quote, the gave-up path, the request list and
  idempotence of a repeated pass.
- `price_alert.dfy` (`PriceAlert`): the checker object. The class
  `PriceAlertLogic` holds the sheet, the messages sent so far and the loaded
  frame. Its methods `Run`, `Scan` and `Evaluate` update these fields in
  place, and each is proved to end in the state that `RunPass`/`ScanPass`
  specify.

The outside world becomes parameters of the model:

- Each HTTP request's outcome is one element of an `attempts` sequence. It
  is a 200 answer carrying its quote list, an exception, or a non-200 status.
- Python's `Decimal` constructor is a parameter `parse: string -> Option<real>`.
  `None` stands for the exception it raises.
- Sending a chat message appends it to the `sent` field.
- The spreadsheet is the `sheet` field: a sequence of rows, row 0 being the
  header.

The model follows the code as written in these places:

- A threshold that fails to parse keeps the rule, with a "validating quote"
  error. The rule is not removed.
- A rule whose symbol has no quote in a non-empty answer raises inside
  `scan`. The pass then ends with one "reading quotes" error. Messages for
  the rules before it have already been sent, and the sheet is not
  rewritten.
- A non-200 status does not count as a failed attempt. Only exceptions
  advance the retry counter, so a server that always answers non-200 keeps
  the loop running with no wait (`EndlessNon200`).
- An empty symbol list is still requested. Nothing short-circuits it.
- The rewritten sheet keeps the rules in their original order. It is not
  sorted, and no "last execution" marker is written.
- The load returns nothing only for a sheet with no rows at all. A
  header-only sheet loads as an empty frame and still triggers a fetch.

## Model

| member | source | states |
|---|---|---|
| AlertTypes.Upper | classes/logic_price_alert.py:142 | upper-casing keeps the length, upper-cases each letter, and its result is already upper-case |
| AlertTypes.UpperFixesUpper | classes/logic_price_alert.py:91 | the second `.str.upper()` applied to the already upper-cased symbol column changes nothing |
| Sheet.UpperSymbols | classes/logic_price_alert.py:142 | `result.symbol.str.upper()`: one row per data row, each with an upper-case symbol |
| Sheet.Load | classes/logic_price_alert.py:138-145 | no frame exactly when the sheet has no rows; otherwise row 0 is the header and each later row becomes a data row, in order, with the same operator and threshold and an upper-cased symbol |
| Sheet.LoadUpperRows | classes/logic_price_alert.py:138-145 | the header followed by rows whose symbols are upper-case loads back as exactly those rows (what a committed sheet gives the next run) |
| Sheet.Symbols | classes/logic_price_alert.py:103 | the symbol column: one entry per row, in row order, with repetitions |
| Sheet.Dedup | classes/logic_price_alert.py:91 | `drop_duplicates`: no duplicates, the same symbols as the input, a subsequence of it, ordered by first occurrence |
| Validation.Lookup | classes/logic_price_alert.py:96 | `quotes[quotes.symbol == item.symbol].iloc[0]`: the price of the first quote carrying the symbol, or nothing where `.iloc[0]` raises (its contract is `LookupFindsFirst`) |
| Validation.LookupFindsFirst | classes/logic_price_alert.py:96 | the lookup finds nothing exactly when no quote has the symbol, and otherwise the price of the first quote that has it (`.iloc[0]`) |
| Validation.Validate | classes/logic_price_alert.py:106-127 | a rule fires only with a quote and a parsed threshold; it sends at most one message and exactly one when it fires; no quote sends nothing |
| Validation.ValidateGreater | classes/logic_price_alert.py:113-116 | "gt" fires exactly when price >= threshold, sending one "greater or equal" message, and sends nothing otherwise |
| Validation.ValidateLess | classes/logic_price_alert.py:117-120 | "lt" fires exactly when price <= threshold, sending one "less or equal" message, and sends nothing otherwise |
| Validation.ValidateInvalidOperator | classes/logic_price_alert.py:121-123 | any other operator fires whatever the price, with one "invalid operator" error |
| Validation.ValidateBadThreshold | classes/logic_price_alert.py:111-125 | an unparsable threshold keeps the rule and sends one "validating quote" error, whatever the operator |
| Validation.ValidateBoundaryFires | classes/logic_price_alert.py:113-120 | a threshold equal to the price fires both "gt" and "lt" |
| Validation.ValidateMessagesAreRuleLevel | classes/logic_price_alert.py:106-127 | validate never sends a reading-quotes, attempts-failed or missing-header error |
| QuoteFetch.Continue | classes/logic_price_alert.py:72-87 | the retry loop from a given outcome, counter and wait list on: give up at three exceptions, stop (Pending) when the outcomes run out, otherwise make a request, waiting first when the counter is positive, and return on a 200 answer, loop unchanged on a non-200 answer, count an exception (its contract is `ContinueShape`) |
| QuoteFetch.ContinueShape | classes/logic_price_alert.py:72-87 | the loop only uses outcomes from its starting point to the end, and records one wait flag per request it makes |
| QuoteFetch.Failover | classes/logic_price_alert.py:69-87 | `get_quote_with_failover` as a function of the request outcomes: at most one request per outcome and one wait flag per request |
| QuoteFetch.FailoverMeetsPolicy | classes/logic_price_alert.py:69-87 | the loop follows the retry policy: a wait comes before a request exactly when an earlier request raised; the loop returns the first 200 answer arriving before the third exception, gives up at the third exception, and does not count non-200 answers |
| QuoteFetch.FailoverEnds | classes/logic_price_alert.py:72-87 | the loop ends exactly when the outcomes hold a 200 answer or three exceptions |
| QuoteFetch.NoWaitBeforeFirstRequest | classes/logic_price_alert.py:74-75 | the first request is made without waiting |
| QuoteFetch.EndlessNon200 | classes/logic_price_alert.py:72-81 | non-200 answers alone never end the loop and never cause a wait |
| QuoteFetch.SecondAttemptSucceeds | classes/logic_price_alert.py:72-85 | one exception then a 200 answer returns that answer after two requests, the second after a wait |
| QuoteFetch.GetQuoteWithFailover | classes/logic_price_alert.py:69-87 | the loop's outcome, requests used and waits equal the specification `Failover`; it sends the "3 attempts have failed" error (naming the loaded symbols) exactly when it gives up |
| Reconcile.Survivors | classes/logic_price_alert.py:94-98 | the `new_sheet` rows after the header: the rules that did not fire, in order, never more than the rules (exactly characterised by `SurvivorsExact`) |
| Reconcile.Notices | classes/logic_price_alert.py:94-98 | the messages `validate` sends for each rule, in rule order (see `NoticesAtMostOnePerRule`, `NoticesAreRuleLevel`) |
| Reconcile.NoticesAtMostOnePerRule | classes/logic_price_alert.py:95-96 | the rule walk sends at most one message per rule |
| Reconcile.ScanPass | classes/logic_price_alert.py:89-104 | one `scan` pass: the fetch trace is `Failover`'s; a pass that does not rewrite leaves the sheet unchanged; a rewrite happens only after a 200 answer and starts with the header row (the full decision is stated by `ScanCommit`, `ScanMissingQuote`, `ScanGaveUp`) |
| Reconcile.FirstUnquoted | classes/logic_price_alert.py:95-96 | the index of the first rule whose symbol has no quote: every earlier rule has one, and the rule at that index (if any) has none |
| Reconcile.EvaluateStep | classes/logic_price_alert.py:95-98 | unfolds `Survivors` and `Notices` by one rule (the link the `Evaluate` loop uses): one more rule is appended to the kept rules if it did not fire, and its messages are appended |
| Reconcile.SurvivorsExact | classes/logic_price_alert.py:94-98 | the kept rules are a subsequence of the rules, keeping every copy of a rule that did not fire and no copy of one that did |
| Reconcile.SurvivorsWhenNoneFire | classes/logic_price_alert.py:94-98 | when no rule fires, every rule is kept, in order |
| Reconcile.NoticesAreRuleLevel | classes/logic_price_alert.py:95-96 | evaluating rules sends only rule-level messages |
| Reconcile.ScanPassNoAnswer | classes/logic_price_alert.py:91-93 | unfolds `ScanPass` for the no-answer case (the link `Scan` uses): an empty or missing answer leaves the sheet as it was and sends only the gave-up error, when the fetch gave up |
| Reconcile.ScanPassAnswered | classes/logic_price_alert.py:93-103 | unfolds `ScanPass` for a non-empty answer (the link `Scan` uses): it either rewrites the sheet as the header plus the kept rules, with all rule messages, or (at the first unquoted rule) leaves the sheet and sends the earlier rules' messages followed by one "reading quotes" error |
| Reconcile.ScanCommit | classes/logic_price_alert.py:93-101 | the sheet is rewritten exactly when the answer is non-empty and quotes every rule; the rewrite is the header followed by exactly the rules that did not fire, in order, each of them a loaded rule; otherwise the sheet is unchanged |
| Reconcile.ScanMissingQuote | classes/logic_price_alert.py:96-103 | a rule without a quote aborts the pass at the first such rule: no rewrite, the earlier rules' messages, then exactly one "reading quotes" error, at the end |
| Reconcile.ScanGaveUp | classes/logic_price_alert.py:82-93 | a fetch that gave up sends only the "3 attempts have failed" error and leaves the sheet unchanged |
| Reconcile.ScanRequest | classes/logic_price_alert.py:91 | the request names each loaded symbol exactly once and nothing else |
| Reconcile.ScanIdempotent | classes/logic_price_alert.py:89-101 | re-running a committed pass on the sheet it wrote, with the same answer, commits again and writes the same sheet |
| PriceAlert.RunPass | classes/logic_price_alert.py:18-24 | one `run`: no fetch exactly when the sheet has no rows (then the missing-header error), otherwise one `scan` pass; a run that does not rewrite leaves the sheet unchanged |
| PriceAlert.RunMissingHeader | classes/logic_price_alert.py:18-24 | the "does not have header columns" error is sent exactly when the sheet has no rows; it is then the only message, no fetch is made and the sheet is unchanged |
| PriceAlert.ScenarioOneFires | classes/logic_price_alert.py:89-120 | with AAPL at 151 and MSFT at 310, "aapl gt 150" fires with one message and is removed, and "MSFT lt 300" stays |
| PriceAlert.PriceAlertLogic.constructor | classes/logic_price_alert.py:13-16 | a checker starts on the given sheet with nothing sent and no frame loaded |
| PriceAlert.PriceAlertLogic.Send | classes/logic_price_alert.py:147-148 | sending appends one message to the chat |
| PriceAlert.PriceAlertLogic.Run | classes/logic_price_alert.py:18-24 | `run` stores the loaded frame and leaves the sheet and the chat as the specification `RunPass` says |
| PriceAlert.PriceAlertLogic.Scan | classes/logic_price_alert.py:89-104 | `scan` leaves the sheet and the chat as the specification `ScanPass` says |
| PriceAlert.PriceAlertLogic.Evaluate | classes/logic_price_alert.py:93-103 | the rule walk either rewrites the sheet as the header plus the kept rules with all rule messages, or stops at the first unquoted rule with one "reading quotes" error and the sheet untouched |

## Left out

- Column lookup by name: rows are read by position (symbol, operator, value). Ragged rows, a header without a "symbol" column (which raises in `get_google_alert_dataframe`) and extra columns are not modelled.
- Decimal parsing is the parameter `parse`. Its grammar and the float/Decimal mixed comparison are not modelled; prices and thresholds are exact reals.
- A NaN or sNaN threshold parses in the source but makes the ordering comparison raise inside `validate` (a "validating quote" error for "gt"/"lt"); the model has no NaN value.
- An infinite threshold ("Infinity", "-Infinity") parses and compares normally in the source ("lt" Infinity fires at every price, "gt" Infinity never does); `parse` returns a real, so the model cannot represent it.
- A quote whose price is null or missing, and a 200 answer whose JSON lacks the expected fields: the latter raises and counts as an exception, which is how the model treats it, but the malformed payload itself is not represented.
- AlertTypes.Upper: upper-cases ASCII letters only; Python's full Unicode `str.upper` is not modelled.
- Network, spreadsheet and chat I/O (httpx, gspread, Telegram), the one-second `time.sleep` (only whether a wait happens is recorded), logging and `async` scheduling are left out.
- A failure of the chat send itself, and a failure between `clear` and `insert_rows` (a cleared but unwritten sheet), are not modelled.
- `create_query_task` (the POST screener request) is not called by the checker's run, and the HTTP/timer entry points that construct the checker are not part of this model.
- QuoteFetch.GetQuoteWithFailover: the source loops forever on a server that never answers 200 and never raises. The model is bounded by the given outcomes and reports `Pending` when they run out; a pass then sends and writes nothing.
- The request URL, the symbol joining and the exact message texts are not modelled; each message is a constructor carrying its symbol, threshold, operator or symbol list.
- The database-backed variants and the fallback fetch strategies of the other scripts are not part of this model.
