# LinkedIn outreach actor — verified model of the processing loop

This project models, in Dafny, the core of an actor that works through a
user's LinkedIn connections: it scrapes the connection URLs from the
connections page, skips those already recorded in its persisted STATE,
extracts each remaining profile, has a language model classify it as a
decision maker or not, records the evaluation, and sends a personalised
message to decision makers — stopping once the per-run quota
(`messagesPerRun`) or the per-day quota (`maxMessagesPerDay`) is met. The
STATE is a map from profile URL to a connection record plus five counters
(`totalEvaluated`, `totalDecisionMakers`, `totalMessagesSent`, `todayCount`,
`lastResetDate`); the per-day counter restarts on a new calendar day.

The browser, the language model and the key-value store are external. Each
appears as the answer it gives for a URL (`Processing.Outcome`): the scraped
page or nothing, the model's verdict or nothing, the model's message text or
nothing, and whether the send succeeded. "Today" is a parameter.

Layout, one module per concern of `src/main.js`:

- `wrappers.dfy` — `Option`.
- `strings.dfy` — substring containment (`includes`).
- `connection_list.dfy` — the URL list preparation: filter on `/in/`, keep first occurrences, cap at 50.
- `profiles.dfy` — profile data, the name check that turns a page into a failed extraction, the degraded classification, the templated fallback message.
- `ledger.dfy` — connection records, statistics, the daily reset, and the invariant `Consistent` that ties the all-time counters to the records.
- `processing.dfy` — the loop as a specification on values (`Visit` for one URL, `Run` for the list) and the lemmas about it.
- `actor.dfy` — class `ActorState` holding the record map and the statistics as fields; the daily reset, the processing loop and the whole execution are methods that update them in place, and each is proved equal to the specification.

What `src/main.js` does not do, and so the model does not either: it does
not reconcile new entries against a frontier at the head or tail of the
list, does not call a `loadMore` or retry, does not rotate messaging styles
away from recent ones, does not dedup by a redirected canonical URL, does
not gate on relationship tier, does not exclude the user's own profile, and
does not fetch the day's count from a remote store. It takes one scraped
list, dedups it by exact URL and keeps the day count in its own STATE.

## Model

| member | source | states |
|---|---|---|
| `ConnectionList.IndexOf` | src/main.js:395 | the index returned holds the value and no earlier position does (first occurrence) |
| `ConnectionList.KeepProfileUrls` | src/main.js:394 | a link is kept iff it is in the input and contains `/in/` |
| `ConnectionList.KeepFirstOccurrences` | src/main.js:395 | the kept values are exactly those of the input, without duplicates, ordered by first occurrence |
| `ConnectionList.FilterKeepsOrder` | src/main.js:394 | filtering on `/in/` keeps the relative order of first occurrences |
| `ConnectionList.PrepareUrls` | src/main.js:390-397 | at most 50 URLs, each a scraped link containing `/in/`, no duplicates |
| `ConnectionList.PrepareUrlsOrder` | src/main.js:391-396 | the list follows first-occurrence order of the page, and a profile link left out implies the list holds 50 URLs that all appear before it |
| `Profiles.ExtractProfileInfo` | src/main.js:94-104 | a profile is usable iff scraping succeeded and the name has at least 2 characters; otherwise nothing is returned |
| `Profiles.EvaluateWithAI` | src/main.js:139-149 | a failed classification yields not a decision maker, category `Error`, confidence 0; a parsed verdict is used as is |
| `Profiles.FirstName` | src/main.js:220 | the result is the prefix of the name up to, not including, the first space |
| `Profiles.FirstNameOfOneWord` | src/main.js:220 | a name without spaces is used whole |
| `Profiles.FirstNameOfTwoWords` | src/main.js:220 | everything from the first space on is dropped |
| `Profiles.FallbackMessage` | src/main.js:219-221 | the template starts with `Hey ` and the first name, and contains the demo URL |
| `Profiles.GenerateMessage` | src/main.js:212-222 | the model's text when composing succeeded, else the fallback template, which contains the demo URL |
| `Ledger.InitialStats` | src/main.js:290-299 | a never-saved STATE has all counters at zero and today's date |
| `Ledger.ResetDay` | src/main.js:302-308 | afterwards the reset date is today; the day counter is zeroed iff the stored date differs; the totals are unchanged |
| `Ledger.ResetDayIdempotent` | src/main.js:302-308 | a second reset on the same day changes nothing |
| `Ledger.InitialConsistent` | src/main.js:290-299 | the never-saved STATE satisfies the counters invariant |
| `Ledger.ConsistentBounds` | src/main.js:461-483 | under the invariant, messages sent <= decision makers <= evaluated |
| `Ledger.ResetDayKeepsConsistent` | src/main.js:302-308 | the daily reset preserves the counters invariant |
| `Ledger.InsertRecordCounts` | src/main.js:449-464 | a record for a new URL adds one to the record count, and one to the decision-maker and sent counts exactly when it is one |
| `Processing.EvaluatedRecord` | src/main.js:449-459 | the record saved after evaluation is marked evaluated and unsent, with no message; name, headline and company come from the profile; decision, category and confidence come from the verdict |
| `Processing.Visit` | src/main.js:417-491 | a known URL or a failed extraction changes nothing; otherwise exactly one new record, carrying the profile's name, headline and company and the classification's decision, category and confidence (so a failed classification stores `Error` and 0), sent iff decision maker and send succeeded, and every counter moves by exactly what the record says |
| `Processing.RecordSend` | src/main.js:477-484 | a successful send changes no key and no other record; the sent record keeps every evaluated field and gains `messageSent` and its message; sent, day and run counters go up by one; evaluated, decision-maker counts and the reset date stay |
| `Processing.Run` | src/main.js:404-415 | the loop over the list, stopping when `QuotaReached` holds: it adds at most one record and sends at most one message per URL |
| `Processing.RunStopsAtQuota` | src/main.js:405-415 | once either quota is met the loop records, counts and sends nothing |
| `Processing.QuotaScenario` | src/main.js:404-415 | three decision makers whose sends succeed under a per-run quota of two: the first two are messaged and the third is never recorded |
| `Processing.RunAppend` | src/main.js:404-496 | processing a list is processing its first part and then the rest |
| `Processing.NothingAfterQuota` | src/main.js:405-415 | URLs after the point where a quota is met are never looked at |
| `Processing.RunKeepsRecords` | src/main.js:417-421 | a run never overwrites or removes a record and only adds records for URLs of its list |
| `Processing.RunRespectsQuotas` | src/main.js:404-484 | the run and day counters never decrease and, if they grow, end within `messagesPerRun` and `maxMessagesPerDay` |
| `Processing.RunSendCountersInStep` | src/main.js:481-483 | the day counter, the all-time sent counter and the run counter grow by the same amount; the reset date is untouched |
| `Processing.VisitKeepsConsistent` | src/main.js:449-484 | one turn of the loop preserves the counters invariant |
| `Processing.RunKeepsConsistent` | src/main.js:404-496 | a whole run preserves the counters invariant |
| `Processing.FailedSendIsFinal` | src/main.js:473-486 | a decision maker whose send failed keeps an unsent record that no later run changes, from any later state whose records extend those right after the failure |
| `Actor.ActorState.constructor` | src/main.js:290-299 | the default STATE: no records, zero counters, consistent |
| `Actor.ActorState.ResetDailyCounter` | src/main.js:301-308 | the statistics become `ResetDay` of the old ones; records unchanged |
| `Actor.ActorState.ProcessConnections` | src/main.js:401-496 | the new records, statistics and run count are `Run` of the old state; records are never overwritten; quotas hold; day and sent counters grow with the run count; consistency is preserved |
| `Actor.ActorState.EvaluateAndSend` | src/main.js:441-491 | recording the evaluation of a new, extracted URL and the send attempt updates the fields exactly as `Visit` does |
| `Actor.ActorState.Execute` | src/main.js:301-497 | reset, then stop at the daily limit with nothing processed, or process the prepared URL list as `Run` does |

## Left out

- `src/supabase-client.js` is not part of this model: it is HTTP plumbing that `src/main.js` does not import.
- Browser automation (navigation, waiting for selectors, cookie injection, DOM queries, typing and clicking in `sendMessage`) appears only as the answers in `Processing.Outcome`; the login check at line 364 and the rethrow of fatal errors at 505-507 are not modelled.
- The language-model prompts, the regular expression and `JSON.parse` of its replies are not modelled; a verdict is a well-typed `Evaluation` or nothing. A reply whose `isDecisionMaker` is a non-boolean JSON value (truthy or missing) is not represented.
- The random pick of a messaging style (line 177) only shapes the prompt text and is not modelled; the trimming of the composed text (213) is taken as done by the collaborator.
- `randomDelay` and `humanScroll` are timing only and are not modelled.
- The timestamps `evaluatedDate` and `sentDate` come from the clock and are not stored in the records.
- `Actor.getValue`/`setValue`: the STATE object is treated as the persisted state; a crash between two saves is not modelled.
- The defaults of the input options (lines 279-283) are not modelled: `Config` takes the resolved values, as integers.
- `Profiles.ExtractProfileInfo`: the length of a name is counted in characters, whereas JavaScript counts UTF-16 code units; names outside the Basic Multilingual Plane may differ at the two-character boundary.
- `Processing.Visit`: the source tests `state.connections[profileUrl]` for truthiness; since every stored record is a non-empty object this is modelled as key membership.
