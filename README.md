# Market sentiment voting: a Dafny model

The application lets a visitor place one vote a day on where the market stands
in the psychological market cycle (Disbelief, Hope, Optimism, Belief, Euphoria,
Complacency, Anxiety, Denial, Panic, Capitulation, Anger, Depression). A vote is
a progress number between 0 and 100, chosen by clicking a phase on the cycle
chart. The server keeps one row per vote, with the submitter's address and a
creation time. It refuses a second vote from the same address on the same day
and lists the stored votes without addresses. The page and the chart component
turn those lists into an average, per-phase bar counts, the most-voted phase of
today and of yesterday, and a trend between them.

This project models that core in Dafny:

- `phases.dfy` (module `Phases`): the threshold classifier `getMarketPhase`, the
  fixed ranking `orderedPhases`, `getPhasePosition` and `getTrend`.
- `line_chart.dfy` (module `LineChart`): the cycle data, the vote counter of the
  fetch effect (an in-place update of fresh bar rows), `getMostVotedPhase`
  (a tally object built vote by vote, then a stable sort by descending count),
  the correlation points, the summary and the choice of the description text.
  The component's state is the class `ChartState`.
- `sentiment_api.dfy` (module `SentimentApi`): the POST and GET handlers of the
  sentiment route over a store object whose table is a sequence of records.
- `vote_check.dfy` (module `VoteCheck`): the vote-status route.
- `page.dfy` (module `Page`): the phase-to-progress table, the rounded average
  of today's votes, and the page's state updates (class `HomePage`).
- `sorting.dfy` (module `Sorting`): the stable sort used for both
  `Array.prototype.sort` and the store's `ORDER BY createdAt ASC`.
- `wrappers.dfy` (module `Wrappers`): an `Option` type.

Time is integer milliseconds since the epoch. Days are 86,400,000 ms, as
section 21.4.1.1 of ECMA-262 ("Time Values and Time Range") defines them. The
server's time zone is a fixed offset. Network replies, the clock,
`localStorage`, request headers and the browser's `toDateString()` are
parameters of the operations.

Behaviours of the code that the model keeps as they are:

- The POST route's day starts at the server's local midnight
  (`setHours(0, 0, 0, 0)`); the check route's day starts at UTC midnight.
  `VoteCheck.CheckReportsVotePostWouldAdmit` and
  `VoteCheck.PostRefusesVoteCheckMisses` show that the two routes disagree in
  both directions.
- POST stores whatever progress number it receives; there is no range check.
- The classifier has ten outputs and the ranking has fourteen names. Two
  classifier outputs (Disbelief, Complacency) are missing from the ranking, and
  the rank does not rise with progress (`Phases.MarketPhaseRankNotMonotone`).
- The sentiment GET returns one flat list of every stored vote, sorted by
  creation time.
- Only the existence of a `findFirst` match is used; the model returns the
  first match in store order.

## Model

| member | source | states |
|---|---|---|
| Phases.MarketPhase | src/components/LineChart.tsx:130-144 | The classifier only ever returns one of its ten names, and never "Disbelief-Start": the second `< 10` test at line 133 is dead. |
| Phases.MarketPhaseIsBandTable | src/components/LineChart.tsx:130-144 | For every progress, the classifier equals the band table: below 10 Depression, [10,20) Disbelief-End, and so on up to [90,95) Euphoria, with 95 and above Disbelief. |
| Phases.BandBoundsIncrease | src/components/LineChart.tsx:132-143 | The band bounds rise strictly, so the bands cover the line without overlap. |
| Phases.EuphoriaBands | src/components/LineChart.tsx:138-142 | Euphoria is returned exactly on [50,60) and on [90,95). |
| Phases.MarketPhaseOnto | src/components/LineChart.tsx:130-144 | Each of the ten names is returned for some progress. |
| Phases.IndexOf | src/components/LineChart.tsx:299-300 | `indexOf`: -1 exactly when the element is absent; otherwise an index holding it, with no earlier index holding it. |
| Phases.OrderedPhasesDistinct | src/components/LineChart.tsx:197-212 | The fourteen ranked names are pairwise distinct. |
| Phases.PhasePosition | src/components/LineChart.tsx:353-355 | A position in [-1, 13]. -1 exactly for an unlisted name; otherwise the ranking holds the name at that position. |
| Phases.PhasePositionRoundTrip | src/components/LineChart.tsx:197-212 | The position of the k-th ranked name is k. |
| Phases.UnrankedPhases | src/components/LineChart.tsx:197-212 | The empty name, Disbelief and Complacency have position -1. |
| Phases.MarketPhaseRankNotMonotone | src/components/LineChart.tsx:130-144 | Progress 55 classifies to the top rank (13), but the higher progress 65 classifies to an unranked name (-1). |
| Phases.Trend | src/components/LineChart.tsx:297-308 | The trend is "same" whenever either phase is empty. |
| Phases.TrendComparesPositions | src/components/LineChart.tsx:297-308 | For two non-empty phases: up iff today's position is greater, down iff smaller, same iff equal. |
| Phases.TrendReflexive | src/components/LineChart.tsx:297-308 | A phase compared with itself is "same". |
| Phases.TrendSwap | src/components/LineChart.tsx:297-308 | Swapping two non-empty phases turns up into down and keeps "same". |
| Phases.TrendDistinctRankedPhases | src/components/LineChart.tsx:297-308 | Two different ranked phases never compare "same". |
| Phases.TrendBlindToUnranked | src/components/LineChart.tsx:297-308 | Disbelief against Complacency compares "same", because both are unranked. |
| LineChart.CountVotes | src/components/LineChart.tsx:237-245 | Fresh rows, one per curve point, each carrying its point. Row i's count is the number of today's votes whose phase first matches the display name at row i. |
| LineChart.LandedCount | src/components/LineChart.tsx:240-245 | A row gets every vote for its display name when it is the first row with that name, and none otherwise. |
| LineChart.LandedTotal | src/components/LineChart.tsx:240-245 | The counts over all rows add up to the number of votes matching some row. That is at most the number of votes; unmatched votes are dropped. |
| LineChart.DisbeliefVotesLandOnStartRow | src/components/LineChart.tsx:21-127 | On the chart's curve, Disbelief votes all land on the Disbelief-Start row and none on the Disbelief-End row. |
| LineChart.EmptyNameVotesLandOnWickRow | src/components/LineChart.tsx:21-127 | The Euphoria-Wick row counts the votes with an empty phase, and the Euphoria-Recovery row counts none. |
| LineChart.FirstOccurrences | src/components/LineChart.tsx:289-292 | The tally's keys: exactly the voted phases, each once. |
| LineChart.FirstOccurrencesOrdered | src/components/LineChart.tsx:289-294 | The keys are ordered by the phase's first occurrence in the votes, which is the order `Object.entries` lists them. |
| LineChart.CountsAreMultiplicities | src/components/LineChart.tsx:289-292 | The tally maps exactly the voted phases, each to its number of votes. |
| LineChart.Tally | src/components/LineChart.tsx:289-292 | The `reduce` loop builds the keys in first-occurrence order and the count map of the votes. |
| LineChart.MostVotedPhase | src/components/LineChart.tsx:286-295 | "" for no votes. Otherwise a voted phase that no phase outvotes; on a tie, the phase voted first wins. |
| LineChart.MostVotedUnique | src/components/LineChart.tsx:286-295 | At most one phase meets that description, so the result is determined. |
| LineChart.TallyFirstMinIsMostVoted | src/components/LineChart.tsx:294 | The entry a stable descending sort puts first is the most-voted phase. |
| LineChart.TallyTopHasMostVotes | src/components/LineChart.tsx:289-294 | A tally entry with the largest count names a voted phase that no phase outvotes. |
| LineChart.TallyTopWinsTies | src/components/LineChart.tsx:289-294 | An entry that outcounts every earlier entry outvotes every phase voted before it first was. |
| LineChart.PhaseSentiment | src/components/LineChart.tsx:255-261 | The value is in [-10, 130]. It is -10 for an unranked phase, and otherwise ten times the phase's position. |
| LineChart.CorrelationPoints | src/components/LineChart.tsx:252-265 | Two points, Yesterday then Today; each carries its own most-voted phase and the length of its own vote list. |
| LineChart.CorrelationPointsRead | src/components/LineChart.tsx:252-265 | Two points, Yesterday then Today. Each carries its phase and its list's length, and its value reads back as its phase. |
| LineChart.SentimentDescription | src/components/LineChart.tsx:310-350 | Which of the four texts is shown: waiting iff there is no phase today; today only iff there is no phase yesterday; "continues" iff the two phases are equal; otherwise a move from yesterday's phase to today's, "more optimistic" iff the trend is up. |
| LineChart.MovedDirection | src/components/LineChart.tsx:310-350 | For two different non-empty phases, the text moves from yesterday to today. It says "more optimistic" iff today ranks above yesterday, and "more pessimistic" otherwise, including on equal rank. |
| LineChart.UnrankedMoveReadsPessimistic | src/components/LineChart.tsx:336-337 | A move from Complacency to Disbelief reads "more pessimistic", although neither phase is ranked. |
| LineChart.Tabulate | src/components/LineChart.tsx:236-274 | The fetch effect's results: the vote-counted rows, both most-voted phases, the vote total, the trend of the two phases, and the two correlation points. |
| LineChart.ChartState.constructor | src/components/LineChart.tsx:215-227 | Rows copied from the curve with zero votes, an empty summary and no trend points. |
| LineChart.ChartState.FetchData | src/components/LineChart.tsx:229-283 | A failed fetch leaves the state alone; a successful one shows exactly what `Tabulate` computes. |
| Sorting.SortBy | src/components/LineChart.tsx:294 | The sort's result is a sorted permutation of its input. |
| Sorting.FirstMin | src/components/LineChart.tsx:294 | The first index holding the smallest key. |
| Sorting.SortHeadIsFirstMin | src/components/LineChart.tsx:294 | A stable sort puts first the earliest element with the smallest key. |
| SentimentApi.SubmitterIp | src/app/api/sentiment/route.ts:8 | The forwarded address when present and non-empty, otherwise the loopback address; never empty. |
| SentimentApi.AnonymousSubmittersShareIdentity | src/app/api/sentiment/route.ts:8 | No header, an empty header and a literal 127.0.0.1 all count as one submitter. |
| SentimentApi.LocalStartOfDay | src/app/api/sentiment/route.ts:12-13 | The latest local midnight: at most a day before now, and a whole day in local time. |
| SentimentApi.SameLocalMidnightIffSameDay | src/app/api/sentiment/route.ts:12-13 | Two instants share a local midnight iff they share a local day number. |
| SentimentApi.FindFirst | src/app/api/sentiment/route.ts:15-22 | A row is found iff the address has a row created at or after the bound, and a found row is such a row. |
| SentimentApi.OtherAddressesIrrelevant | src/app/api/sentiment/route.ts:15-22 | Rows of other addresses never change the duplicate check. |
| SentimentApi.SavedVoteBlocksSameLocalDay | src/app/api/sentiment/route.ts:12-24 | A stored vote blocks its address for the rest of its local day. |
| SentimentApi.NewLocalDayAdmitsEveryone | src/app/api/sentiment/route.ts:12-24 | Once local midnight has passed every stored vote, no address is blocked. |
| SentimentApi.GetIgnoresAddresses | src/app/api/sentiment/route.ts:54-58 | Addresses are not sent: two tables that agree on every row's progress and creation time get the same GET answer, whatever their addresses. |
| SentimentApi.SentimentStore.constructor | src/app/api/sentiment/route.ts:4 | The table starts empty. |
| SentimentApi.SentimentStore.Post | src/app/api/sentiment/route.ts:6-46 | 429 iff the body parses, the query runs and the address already has a vote since local midnight. The row is saved iff the body parses with a progress, nothing throws and there is no vote; it holds that address, that progress (unchecked) and now, and is appended. Any other outcome is 500 with the table unchanged.  If the table held at most one vote per address per local day before, it still does. |
| SentimentApi.AdmittedVoteKeepsOnePerLocalDay | src/app/api/sentiment/route.ts:15-36 | The route's guarantee as a table invariant (`OnePerLocalDay`: no two rows of one address share a local midnight) survives appending any vote that the duplicate check admits. |
| SentimentApi.SentimentStore.Get | src/app/api/sentiment/route.ts:48-69 | 500 iff the store fails. Otherwise a permutation of the projected rows, sorted by creation time. |
| SentimentApi.PostTwiceSameDay | src/app/api/sentiment/route.ts:6-46 | Two votes from one address on one local day: when the first is saved, the second gets 429 and the table keeps only the first. |
| VoteCheck.UtcStartOfDay | src/app/api/sentiment/check/route.ts:9-10 | A multiple of a day, at most a day before now. |
| VoteCheck.UtcStartOfDayUnique | src/app/api/sentiment/check/route.ts:9-10 | It is the only such instant. |
| VoteCheck.UtcIsZeroOffsetMidnight | src/app/api/sentiment/check/route.ts:9-10 | UTC midnight equals the POST route's local midnight at offset 0. It differs from it at every offset that is not a whole number of days. |
| VoteCheck.Check | src/app/api/sentiment/check/route.ts:6-26 | A store failure gives 500 with `hasVoted` false; otherwise 200. `hasVoted` holds iff the address has a vote since UTC midnight. |
| VoteCheck.CheckMonotone | src/app/api/sentiment/check/route.ts:12-21 | Adding rows can turn `hasVoted` on but never off. |
| VoteCheck.CheckSeesVoteOfSameUtcDay | src/app/api/sentiment/check/route.ts:12-21 | A vote of the same UTC day makes `hasVoted` true. |
| VoteCheck.CheckReportsVotePostWouldAdmit | src/app/api/sentiment/check/route.ts:9-21 | On a server two hours ahead of UTC, a vote at 10:00 UTC is reported at 23:00 UTC. POST at that instant would not refuse a new vote. |
| VoteCheck.PostRefusesVoteCheckMisses | src/app/api/sentiment/route.ts:12-29 | On a server five hours behind UTC, POST at 01:00 UTC the next day refuses a vote that the check does not report. |
| Page.Lookup | src/app/page.tsx:123 | Lookup of an own property of the table: undefined iff no entry has the key; otherwise the value of an entry with that key. |
| Page.PhaseToProgress | src/app/page.tsx:108-123 | A selected progress is in [0, 100]; it is undefined exactly for names the table lacks. |
| Page.TableIncreasing | src/app/page.tsx:109-122 | The table's values rise strictly from Disbelief to Depression and lie in [0, 100]. |
| Page.TableRoundTrip | src/app/page.tsx:109-123 | Each listed phase selects its listed value. |
| Page.SplitPhasesWithoutProgress | src/app/page.tsx:109-123 | A click on Disbelief-Start, Disbelief-End, Euphoria-Wick or Euphoria-Recovery selects an undefined progress. |
| Page.RoundedAverage | src/app/page.tsx:58-62 | `Math.round(total / count)`: the nearest integer to the mean, with halves rounded up. |
| Page.AverageBetweenBounds | src/app/page.tsx:58-62 | The rounded average lies between the smallest and the largest vote. |
| Page.TodaysProgress | src/app/page.tsx:51-55 | Exactly the progress values of the votes dated today, and no more of them than there are votes. |
| Page.TodaysProgressConcat | src/app/page.tsx:51-55 | Filtering a concatenation is the concatenation of the filtered parts, so the filter keeps order and every repeated vote. |
| Page.TodaysProgressOne | src/app/page.tsx:51-55 | One vote is kept, as its progress, exactly when its date string is today's. |
| Page.RepeatedVotesAllCount | src/app/page.tsx:51-62 | Two votes of 10 and one of 40, all from today, average to 20: equal votes are not merged. |
| Page.HomePage.constructor | src/app/page.tsx:9-15 | The initial state: progress 65, average 0, nothing submitted, voted or selected, results hidden. |
| Page.HomePage.HandlePhaseSelect | src/app/page.tsx:108-125 | Sets the table's progress for the phase (undefined if missing) and the selected phase; nothing else changes. |
| Page.HomePage.CheckVoteStatus | src/app/page.tsx:19-39 | A stored date of today marks the visitor as voted and shows results without a request. Otherwise the endpoint is consulted, and only its "true" shows results. |
| Page.HomePage.FetchAverageSentiment | src/app/page.tsx:44-73 | A failed fetch or an empty list changes nothing. Otherwise the average of today's votes, or 0 when none is from today. |
| Page.HomePage.HandleSubmit | src/app/page.tsx:75-106 | Sends the current progress and is submitting while the request is pending. An ok reply stores today's date and marks the visitor as voted. Otherwise it alerts the server's error, "Failed to submit" or the thrown message, and the vote flags stay. `isSubmitting` ends false. |

## Left out

- Phases.MarketPhase: progress is a real number. NaN and +Infinity fall through every test to "Disbelief", and -Infinity gives "Depression"; none of them is modelled.
- LineChart.MostVotedPhase: `Object.entries` lists keys that look like array indices ("0", "1", ...) first in numeric order. The model uses plain insertion order; no phase name looks like an index.
- LineChart.ChartState.FetchData: the reply is modelled as two lists of phase names. The route it calls returns a flat list without phases, so in the running system the destructuring yields undefined and the effect throws. That composition is not modelled.
- LineChart.MostVotedPhase: names that a plain object inherits from `Object.prototype` (such as "constructor" or "__proto__") are not modelled; the tally is a clean map. The chart passes only its own phase names.
- Page.Lookup: a key inherited from `Object.prototype` (such as "constructor") would find an inherited property rather than undefined; the model looks only at the table's own entries, and the chart passes only its own phase names.
- SentimentApi.SentimentStore.Post: a body without `progress` answers 500 because the database schema requires the column. The schema file is not part of this model.
- VoteCheck.UtcStartOfDay: clock readings in the years 0-99, which `Date.UTC` maps to 1900-1999, are not modelled.
- SentimentApi.LocalStartOfDay: the server's time zone is a fixed offset; daylight-saving changes are not modelled.
- SentimentApi.SentimentStore.Post: `createdAt` is the database default, modelled as the request's `now`. Progress is an integer, and a non-integer or non-number body field is not modelled. Concurrent requests (two POSTs racing past the check) and the row id are not modelled.
- SentimentApi.SentimentStore.Get: rows with equal `createdAt` keep store order; the database gives no such promise.
- Page.RoundedAverage: it uses exact integer arithmetic; floating-point rounding of the sum and the division is not modelled.
- Page.HomePage.HandleSubmit: a thrown value that is not an `Error`, which gives the generic alert text, is not modelled; the request and decoding failures are `Error`s.
- Page.HomePage.FetchAverageSentiment: a reply that is not a list is modelled as a failed fetch (None).
- Page.HomePage.CheckVoteStatus: the endpoint's reply is its `hasVoted` field; a 500 reply carries `hasVoted` false and acts like false.
- Rendering (JSX, the recharts components, `phaseColors`, `formatDate`, the tick formatter, the alert and the progress bar) is not modelled. The click handler at src/components/LineChart.tsx:392-394 only passes a phase name to `HandlePhaseSelect`.
- React's effect scheduling (the effects re-running when `isSubmitting` or `isVoting` changes) is not modelled; each effect is one method call.
- prisma/remove-votes.ts and src/lib/utils.ts are not part of this model.
