# 2026 Goals: a verified model of the daily-review page

The page lets a signed-in user rate three fixed goals (material, ego, running)
from 1 to 5 each day and write a note for each. Every save writes that day's
entry document under the user's id. It then recomputes the month document for
the entry's month: the share, in percent, of the best possible score
(5 points a day) that the user reached for each goal over the entries of that
month.

The model has eight modules:

- `Options`: the `Option` datatype.
- `Goals`: the three goal keys and the one-value-per-goal record, with its
  spread-copy update.
- `Dates`: ISO dates and the `YYYY-MM` month key.
- `Entries`: the draft entry, its default value (rating 3, empty note) and the
  two edits the form applies.
- `Documents`: entry and month documents as maps from field paths to values; the
  merging write (`setDoc(..., { merge: true })`); the payload `save` writes;
  reconstruction of the draft from a stored document; the shown percentage.
- `MonthAggregator`: the scan of `recomputeMonth`. It is a loop method,
  `Aggregate`, proved against the functional specification `MonthSummary`.
  There are lemmas on order independence and the month filter, the rounding of
  the percentages, their bounds, and concrete scores.
- `Store`: the document store, a class whose per-user maps of entry and month
  documents the merging writes update in place. It also holds the scan, which
  lists every entry document of a user exactly once, and `MapTally`, the
  order-free month totals of a user's documents.
- `Page`: the page component as a class `HomePage` with the component's state
  as fields and one method per handler or effect. The invariant `Valid` says
  every stored entry document carries its own date, which is what `save`
  writes. Two client methods prove end-to-end scenarios: save then reload, and
  sign out then sign in as someone else.

The source divides each rating sum by five times the count, multiplies by 100
and rounds with `Math.round`, in floating point. The model computes
it in exact integer arithmetic as 20·sum/count, rounded to the nearest integer
with halves rounded up (as `Math.round` does). `PctRounds` states this as the
bracket `2·count·r − count ≤ 40·sum < 2·count·r + count`, and `PctIsUnique`
shows that the bracket fixes the result.

Calls to the identity provider and the document store that can fail get their
outcome as a parameter: an `AuthResult`, or an `Option<string>` error message
per read or write. The clock (`today`, `now`) is a parameter too. Effects that
React runs when `uid` or `date` changes are methods the caller invokes
explicitly.

## Model

| member | source | states |
|---|---|---|
| Goals.GoalRecord.With | app/page.tsx:437-440 | the spread copy `{ ...r, [k]: v }` holds `v` at `k` and agrees with `r` at every other key |
| Goals.Uniform | app/page.tsx:185 | the record holding the same value for every goal, e.g. the zeroed sums |
| Dates.MonthKey | app/page.tsx:79-81 | the first seven characters of the date; see MonthKeyIsPrefix, MonthKeyOfIsoDate, SameMonthKeyIff |
| Dates.MonthKeyIsPrefix | app/page.tsx:79-81 | the month key is a prefix of the date, of length 7, or the whole date when it is shorter |
| Dates.MonthKeyOfIsoDate | app/page.tsx:79-81 | for a `YYYY-MM-DD` date the month key is year, dash, month |
| Dates.SameMonthKeyIff | app/page.tsx:79-81 | two ISO dates share a month key if and only if they share year and month |
| Dates.MonthKeyIdempotent | app/page.tsx:79-81 | the month key of a month key is itself |
| Entries.DefaultEntry | app/page.tsx:100-104 | the fresh draft for a date: that date, rating 3 and an empty note for every goal |
| Entries.WithRating | app/page.tsx:434-441 | the rating edit sets goal `g` to `n` and leaves the other ratings, the notes and the date unchanged |
| Entries.WithNote | app/page.tsx:458-462 | the note edit sets goal `g`'s note and leaves the other notes, the ratings and the date unchanged |
| Entries.RatingEditIdentity | app/page.tsx:434-441 | selecting the rating already shown leaves the draft equal to itself |
| Entries.LastRatingEditWins | app/page.tsx:434-441 | two rating edits of one goal amount to the last one |
| Entries.RatingEditsCommute | app/page.tsx:434-441 | rating edits of different goals commute |
| Entries.NoteEditsCommute | app/page.tsx:458-462 | note edits of different goals commute |
| Entries.RatingAndNoteEditsCommute | app/page.tsx:434-462 | a rating edit and a note edit commute, whatever their goals |
| Documents.Merge | app/page.tsx:217-226 | a merging write keeps the union of the fields, takes every payload field and keeps every other stored field |
| Documents.MergeIdempotent | app/page.tsx:217-226 | repeating a merging write with the same payload changes nothing |
| Documents.EntryPayload | app/page.tsx:219-224 | the saved document holds the entry's date, each goal's rating and note, and the write time |
| Documents.LoadedDraft | app/page.tsx:146-153 | the draft after loading holds the selected date; with no document it is the default draft; with a complete document it holds the stored ratings and notes |
| Documents.SaveThenLoad | app/page.tsx:217-226 | loading a date right after saving a draft to it gives back exactly that draft, whatever was stored before |
| Documents.NoteEditKeepsStoredRatings | app/page.tsx:458-462 | loading, editing one note and saving leaves every stored rating as it was |
| Documents.MonthPayload | app/page.tsx:200-204 | the month document holds one percentage per goal |
| Documents.MonthPayloadOverwrites | app/page.tsx:206 | merging a month payload replaces the whole month document, since it names every goal |
| Documents.ZeroStats | app/page.tsx:171 | the statistics shown for a month with no document are 0 for every goal |
| Documents.ShownPercent | app/page.tsx:406 | the shown percentage is the stored one when the statistics hold goal `g`, and 0 when there are no statistics or they lack `g` |
| MonthAggregator.RatingOrZero | app/page.tsx:192-194 | a goal's stored number rating, 0 when absent; see MissingRatingStillCounts |
| MonthAggregator.InMonth | app/page.tsx:190 | the document's text date has month key `mk`; see OnlyMonthCounts, OtherMonthIgnored |
| MonthAggregator.Contribution | app/page.tsx:190-194 | one document adds 1 and its ratings in the month, nothing otherwise; see AccumulateSingle, OnlyMonthCounts |
| MonthAggregator.Accumulate | app/page.tsx:187-195 | the counts and sums after the scan; see AccumulateAppend, AccumulatePermutation, OnlyMonthCounts |
| MonthAggregator.Pct | app/page.tsx:197-198 | the rounded percentage; see PctRounds, PctIsUnique, PctBetween |
| MonthAggregator.MonthSummary | app/page.tsx:197-204 | the month document the scan produces; see SummaryPermutation, EmptyMonthIsZero, PercentInRange |
| MonthAggregator.InMonthOnly | app/page.tsx:190 | the documents the scan keeps all lie in the target month |
| MonthAggregator.PctRounds | app/page.tsx:197-198 | the percentage is 0 for an empty month, else 20·sum/count rounded to the nearest integer, halves up |
| MonthAggregator.PctIsUnique | app/page.tsx:197-198 | the round-half-up bracket has exactly one solution, `Pct`'s result |
| MonthAggregator.Percentages | app/page.tsx:197-204 | each goal's percentage is `Pct` of that goal's sum over the count |
| MonthAggregator.Aggregate | app/page.tsx:184-198 | the scan loop fails exactly when some scanned document has a `date` field that is not text; otherwise it yields `MonthSummary` of the scanned documents, skipping any document without a `date` field as the query does |
| MonthAggregator.AccumulateAppend | app/page.tsx:187-195 | scanning two runs of documents adds their counts and sums |
| MonthAggregator.AccumulateSingle | app/page.tsx:187-195 | scanning one document yields that document's contribution |
| MonthAggregator.AccumulatePermutation | app/page.tsx:181-182 | the totals depend only on which documents are scanned, not on the query's order |
| MonthAggregator.SummaryPermutation | app/page.tsx:181-182 | the month summary likewise ignores the scan order |
| MonthAggregator.OnlyMonthCounts | app/page.tsx:190-191 | documents of other months contribute nothing; the count is the number of documents of the month |
| MonthAggregator.OtherMonthIgnored | app/page.tsx:190 | inserting a document of another month anywhere leaves the summary unchanged |
| MonthAggregator.EmptyMonthIsZero | app/page.tsx:197-198 | a month with no entry scores 0 for every goal |
| MonthAggregator.NotInMonthOnly | app/page.tsx:190 | a non-empty filtered scan comes from a scan holding a document of the month |
| MonthAggregator.InMonthOnlyKeeps | app/page.tsx:190 | a document of the month survives the filter |
| MonthAggregator.MissingRatingStillCounts | app/page.tsx:191-194 | an entry without a rating for a goal still counts as an entry and adds 0 to that goal's sum |
| MonthAggregator.PctBetween | app/page.tsx:197-198 | an average between lo and hi per entry gives a percentage between 20·lo and 20·hi |
| MonthAggregator.SumBetween | app/page.tsx:192-194 | per-entry ratings between lo and hi make the sum lie between lo·count and hi·count |
| MonthAggregator.PercentInRange | app/page.tsx:197-198 | ratings from 0 to 5 give a percentage from 0 to 100 |
| MonthAggregator.RatedPercentInRange | app/page.tsx:197-198 | a month with at least one entry and every rating from 1 to 5 scores from 20 to 100 |
| MonthAggregator.SingleEntryScore | app/page.tsx:197-198 | a month with one entry rated r scores 20·r |
| MonthAggregator.ThreeEntryScenario | app/page.tsx:184-198 | three entries rated 4, 5 and 3 score 80 |
| Store.MapTallyRemove | app/page.tsx:187-195 | the order-free totals can take any one document out first |
| Store.ScanTally | app/page.tsx:180-195 | scanning a user's documents in whatever order the store lists them yields the order-free totals |
| Store.MergedAt | app/page.tsx:217-226 | after a merging write, the written document of that user and key is the merge of the stored one (or of nothing) with the payload |
| Store.MergedAtKeepsOthers | app/page.tsx:217-226 | a merging write keeps every other document of every user as it was and removes none |
| Store.DocumentStore.EntryDoc | app/page.tsx:144-145 | reading an entry finds the stored document exactly when one exists for that user and date |
| Store.DocumentStore.MonthDocOf | app/page.tsx:168-169 | reading a month finds the stored document exactly when one exists for that user and month |
| Store.DocumentStore.MergeEntry | app/page.tsx:216-226 | the write merges the payload into that user's document for that date and changes no other document |
| Store.DocumentStore.MergeMonth | app/page.tsx:206 | the write merges the payload into that user's month document and changes no other document |
| Store.DocumentStore.ScanEntries | app/page.tsx:180-182 | the query lists every entry document of the user exactly once, beside its key |
| Page.DatedWriteKeepsAllDated | app/page.tsx:216-222 | writing a payload that carries the document's own date keeps every stored document dated by its key |
| Page.HomePage.constructor | app/page.tsx:90-111 | the first render: not ready, no user, empty credentials, today's default draft, not saving, no status, no statistics |
| Page.HomePage.OnAuthStateChanged | app/page.tsx:123-129 | the listener records the reported user and marks the page ready |
| Page.HomePage.SignIn | app/page.tsx:238-249 | on success the credentials are cleared and the status is empty; on failure the status is the error and the credentials are kept |
| Page.HomePage.SignUp | app/page.tsx:251-261 | as sign-in, with the sign-up error |
| Page.HomePage.SignOut | app/page.tsx:263-278 | on success the statistics are dropped and the date and draft are reset to today's default; on failure only the status changes |
| Page.HomePage.SelectDate | app/page.tsx:386 | the date picker sets the selected date |
| Page.HomePage.EditRating | app/page.tsx:434-441 | the draft becomes the rating edit of the old draft |
| Page.HomePage.EditNote | app/page.tsx:458-462 | the draft becomes the note edit of the old draft |
| Page.HomePage.LoadEntry | app/page.tsx:132-159 | without a user nothing changes; a failed read leaves the default draft and a load error; otherwise the draft is loaded from the stored document |
| Page.HomePage.LoadMonthStats | app/page.tsx:162-176 | without a user, or on a failed read, the statistics are kept; otherwise they are the stored month document, or zeros |
| Page.HomePage.RecomputeMonth | app/page.tsx:178-208 | the first failing store call's error is returned and nothing changes; otherwise the month document and the shown statistics become the summary of all the user's entries for the month |
| Page.HomePage.EveryScannedEntryDated | app/page.tsx:189-190 | under the store invariant no scanned document lacks a date, so the scan never fails |
| Page.HomePage.WriteEntry | app/page.tsx:216-226 | the draft's payload is merged into the user's document of the draft's date, and every stored document stays dated by its key |
| Page.HomePage.Save | app/page.tsx:210-236 | without a user nothing changes; otherwise the draft is merged into its date's document, the month is recomputed, the status says saved or gives the first error, and saving ends false |
| Page.SaveThenReload | app/page.tsx:210-236 | a save without failure followed by a load shows the same draft, and the month document holds the summary of the user's entries |
| Page.SwitchUser | app/page.tsx:263-278 | after signing out and signing in as another user, the page shows the default draft and 0% for every goal |

## Left out

- The identity provider and the network: sign-in, sign-up, sign-out and every document read or write are replaced by their outcome, given as a parameter.
- Asynchrony and races: every handler and effect runs to completion before the next. An effect for a stale date finishing after a newer one is not modelled.
- The re-run of the two loading effects when `uid` or `date` changes: the caller invokes `LoadEntry` and `LoadMonthStats` explicitly.
- `todayISO` and `Timestamp.now()`: the clock's values are parameters.
- `randomMantra` and the mantra list: no state depends on them.
- The rendering (JSX), `app/layout.tsx`, and the exact status texts: `Status` keeps the kind and the error message of each status line.
- `console.error` logging is left out, since it changes no state.
- The email and password inputs' `setEmail`/`setPassword`, and `email.trim()`: sign-in takes only its outcome.
- The disabled Save button (`saving || !uid`): `Save` can be called while `saving` holds.
- The order of the query's `orderBy("date")`: the scan lists the documents in an arbitrary order, which the permutation lemmas show does not matter. The query's omission of documents without a `date` field is modelled: `Aggregate` skips them.
- Floating point: the percentage is computed exactly, with half-way cases rounded up. In double precision `sum / (count * 5) * 100` can land just below an exact half, and `Math.round` then rounds down: for 8 entries summing to 23 (seven ratings of 3 and one of 2) the exact value is 57.5, so `Pct(23, 8)` is 58, while the double product is 57.49999999999999 and the page shows 57. Count 16 with sum 46 and count 24 with sum 69 behave the same. For a month of at most 31 entries rated 1 to 5 these three are the only sums where the two roundings differ; the model does not follow them.
- Documents.LoadedDraft: builds the draft from the stored values only when the document holds a number rating and a text note for every goal. Otherwise it keeps the default draft, whereas the source copies whatever `rating` and `notes` hold, including `undefined`.
- MonthAggregator.RatingOrZero: a stored rating that is not a number counts as 0. The source's conversion to a number would parse numeric text and yield `NaN` for other values.
- Documents.Merge: the deep merge of nested maps is modelled by flattening `rating` and `notes` into one path per goal, so each write replaces leaves only. A stored field of another shape at `rating` or `notes` is not modelled.
- The store's deletions and other writers: the only writes are the page's own merging writes, which is what keeps the store invariant `Valid`.
- Page.HomePage.Save and Page.HomePage.RecomputeMonth: require the store invariant `Valid`, which the page's own writes keep. A store holding a document whose `date` field is present but not text, written by another client, would make the source's scan throw; `Aggregate` models that failure, but the page methods assume it does not happen.
