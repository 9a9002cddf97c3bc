# Lead pipeline core in Dafny

This project models the analytical core of a sales-lead pipeline. There are
three parts.

- **Scoring engine** (`lead_scoring.dfy`, module `Scoring`). It turns a lead's
  industry, business type, head count, revenue, state and data completeness
  into a rating between 1 and 10. It also gives a per-component breakdown, one
  of five category bands, and advisory suggestions.
- **Activity tracker** (`activity_tracking.dfy`, module `Activities`). This is
  an append-only in-memory log of activities. From it come:
  - a lead's feed, newest first;
  - the lead's reconstructed status history with day durations;
  - windowed statistics with per-day and per-type counts;
  - stale-lead detection;
  - the conversion funnel.
- **Lead store** (`lead_storage.dfy`, module `Storage`). It keeps an array of
  leads that is appended to, patched in place and spliced. It offers a faceted
  search, status counts and the distinct facet values.

`lead_types.dfy` holds the lead record shared by the scoring engine and the
tracker. `util.dfy` holds these sequence helpers: order-preserving filtering,
subsequences, substrings, ASCII lower-casing, first-occurrence de-duplication
and the sum of a counting map.

The tracker and the store are classes whose methods change one `seq` field
and say exactly what its new value is. Everything that only reads is a
function with lemmas about it. The loops of `getLeadTimeline` and
`getActivityStats` are methods with loop invariants, proved against reference
functions.

Modelling choices:
- Scores, weights and rates are exact reals.
- Timestamps are integer milliseconds. Generated ids, the current time and
  the window and cutoff instants are parameters.

### Behaviour worth noting

- **Leads with no contact record.** A lead other than a prospect that has
  neither a contact attempt nor a `contacted_at` date is not stale, because
  the stale filter returns the falsy `contacted_at`
  (lib/activity-tracking.ts:188-191). `Activities.StaleCharacterised` states
  this.
- **Funnel total.** The total counts only prospect, contacted, replied and
  converted leads, so rejected leads are not part of it
  (lib/activity-tracking.ts:206). `Activities.GetConversionFunnel` proves that
  the total plus the rejected leads equals the number of leads.
- **Status history timestamps.** Each old status is stamped with the time of
  the change that left it, and the current status is stamped with
  `updated_at` (lib/activity-tracking.ts:110-123). A lead now `replied` with
  one change out of `contacted` at T2 therefore has this history:
  - `contacted` at T2, with no duration;
  - `replied` at `updated_at`, lasting the day-ceiling of `updated_at - T2`.

  `Activities.SingleChangeTimeline` states this.

## Model

| member | source | states |
|---|---|---|
| LeadTypes.StatusName | lib/types.ts:20 | each status is written as a non-empty string |
| LeadTypes.StatusNameInjective | lib/types.ts:20 | different statuses are written differently |
| Scoring.WeightsSumToOne | lib/lead-scoring.ts:96-103 | the six weights are non-negative and sum to exactly 1 |
| Scoring.TableScore | lib/lead-scoring.ts:117-131 | `table[key] \|\| 5.0`: a missing key or a stored 0 gives 5.0, any other stored value is returned as is; never 0 |
| Scoring.IndustryScore | lib/lead-scoring.ts:30-46 | a listed industry scores its table entry, an unknown one 5.0; every industry score is in [4.5, 9.5] |
| Scoring.BusinessTypeScore | lib/lead-scoring.ts:47-60 | a listed business type scores its table entry, an unknown one 5.0; every score is in [4.0, 9.5] |
| Scoring.LocationScore | lib/lead-scoring.ts:79-90 | a listed state scores its table entry, an unknown one 5.0; every score is in [5.0, 9.0] |
| Scoring.EmployeeCountScore | lib/lead-scoring.ts:141-149 | the head-count staircase stays in [4.0, 9.5] |
| Scoring.RevenueScore | lib/lead-scoring.ts:151-159 | the revenue staircase stays in [3.0, 9.5] |
| Scoring.EmployeeStaircaseMatchesTable | lib/lead-scoring.ts:61-69 | the hand-written staircase gives the entry of the largest declared key not above the count (the bottom entry below every key) |
| Scoring.RevenueStaircaseMatchesTable | lib/lead-scoring.ts:70-78 | the same agreement between the revenue staircase and its declared table |
| Scoring.TopBucketsDrop | lib/lead-scoring.ts:141-159 | 500+ employees and 50M+ revenue score strictly less than the bucket below |
| Scoring.StaircasesMonotoneBelowTop | lib/lead-scoring.ts:141-159 | below the top bucket a larger count or revenue never scores less |
| Scoring.DataQualityPoints | lib/lead-scoring.ts:161-185 | the checklist earns at most 10 points; 10 exactly when all seven checks pass, 0 exactly when none does |
| Scoring.DataQualityMarginal | lib/lead-scoring.ts:165-184 | passing one check, all else equal, adds exactly its points: 2 for website, email and phone, 1 for contact name, address, zip code and description |
| Scoring.DataQualityScore | lib/lead-scoring.ts:161-187 | points possible always total 10, so the score equals the points earned and lies in [0, 10] |
| Scoring.Clamp | lib/lead-scoring.ts:138 | the result is in [1, 10]; a value in [1, 10] is unchanged, one below 1 becomes 1 and one above 10 becomes 10 |
| Scoring.CalculateLeadScore | lib/lead-scoring.ts:113-139 | every rating is in [1, 10] |
| Scoring.ClampNeverBinds | lib/lead-scoring.ts:113-139 | the unclamped weighted sum (`WeightedSum`, the `score +=` chain) always lies in [3.625, 9.5], so the rating equals it |
| Scoring.BreakdownConsistent | lib/lead-scoring.ts:189-229 | covers `GetScoreBreakdown`: each named component carries its own factor's score and weight (0.25, 0.2, 0.15, 0.2, 0.1, 0.1), every contribution is score times weight, the contributions sum to the unclamped score, and the rating is its clamp |
| Scoring.GetScoreCategory | lib/lead-scoring.ts:231-263 | each of the five bands is chosen exactly on its interval (inclusive lower bounds 8.5, 7.0, 5.5, 4.0) |
| Scoring.CategoryMonotone | lib/lead-scoring.ts:231-263 | a higher score never falls into a worse band |
| Scoring.SuggestImprovements | lib/lead-scoring.ts:266-291 | each advisory appears exactly when its component is below its floor, in checking order; the positive message appears alone exactly when no floor is breached; 1 to 4 messages |
| Scoring.Advise | lib/lead-scoring.ts:266-291 | for any four component scores: each advisory exactly when its score is below its floor, in checking order; the positive message alone exactly when none is |
| Scoring.ScoreLeads | lib/lead-scoring.ts:294-299 | same leads in the same order, only `rating` replaced, by the lead's score in [1, 10] |
| Scoring.EnergyTexasExample | lib/lead-scoring.ts:113-139 | an Energy / B2B Services / Texas lead with 150 employees and 15M revenue scores 7.75 plus a tenth of its data-quality score |
| Activities.ContactAttemptDescription | lib/activity-tracking.ts:80-86 | "Contact attempt via <method>", followed by ": <notes>" exactly when notes are given and non-empty |
| Activities.NoteDescription | lib/activity-tracking.ts:88-94 | the note follows the prefix in full up to 100 characters; longer notes keep their first 100 characters plus `...` |
| Activities.NoteRoundTrip | lib/activity-tracking.ts:92 | a short note can be read back from its description; a long one comes back truncated with the ellipsis |
| Activities.ActivityTracker.constructor | lib/activity-tracking.ts:26 | the log starts empty |
| Activities.ActivityTracker.TrackActivity | lib/activity-tracking.ts:58-68 | appends exactly one activity with the given fields, id and time, and returns it |
| Activities.ActivityTracker.TrackStatusChange | lib/activity-tracking.ts:70-78 | appends a status change recording the old and new status and its description |
| Activities.ActivityTracker.TrackContactAttempt | lib/activity-tracking.ts:80-86 | appends a contact attempt with its description and no old/new value |
| Activities.ActivityTracker.TrackNoteAdded | lib/activity-tracking.ts:88-94 | appends a note activity with the truncated description |
| Activities.InsertNewestFirst | lib/activity-tracking.ts:99 | inserting into a newest-first sequence keeps it newest first and adds exactly the one activity |
| Activities.SortNewestFirst | lib/activity-tracking.ts:99 | the sort result is newest first and a permutation of its input |
| Activities.InsertNewestFirstTies | lib/activity-tracking.ts:99 | an inserted activity goes ahead of the entries sharing its timestamp and the order among the rest is kept |
| Activities.SortNewestFirstStable | lib/activity-tracking.ts:99 | the sort is stable: the activities sharing any one timestamp come out in input order |
| Activities.LeadActivities | lib/activity-tracking.ts:96-100 | the feed is newest first, a permutation of the lead's filtered activities, and holds exactly the log's activities of that lead |
| Activities.LeadActivitiesTiesInLogOrder | lib/activity-tracking.ts:96-100 | a lead's activities with the same timestamp appear in the feed in log order |
| Activities.ActivityTracker.GetLeadActivities | lib/activity-tracking.ts:96-100 | returns the lead's feed of the current log |
| Activities.FilterNewestFirst | lib/activity-tracking.ts:104 | filtering a newest-first feed keeps it newest first |
| Activities.CeilDays | lib/activity-tracking.ts:130 | the day count is the least whole number of days covering the gap, negative gaps included |
| Activities.LoggedChanges | lib/activity-tracking.ts:103-123 | every change used by the history is a status change carrying an old value |
| Activities.LoggedChangesExactly | lib/activity-tracking.ts:103-123 | the changes used by the history are, in feed order and with every occurrence, exactly the status changes that carry an old value |
| Activities.NewestPoints | lib/activity-tracking.ts:107-123 | the points are the current status at `updated_at` followed by one entry per logged change, newest first |
| Activities.PointsStep | lib/activity-tracking.ts:115-123 | one more status change adds one entry, at the end, exactly when it has a non-empty old value |
| Activities.CollectPoints | lib/activity-tracking.ts:107-123 | the first loop builds exactly the current entry followed by the entries of the changes with an old value |
| Activities.FillDurations | lib/activity-tracking.ts:125-131 | the second loop gives each point but the oldest the day-ceiling of the gap to the next older point |
| Activities.StatusHistory | lib/activity-tracking.ts:102-137 | the chronological history has one entry per logged change plus the current status last; earlier entries are the old statuses, oldest first; the first entry has no duration and every later one the day-ceiling of the time since the previous entry |
| Activities.Chronological | lib/activity-tracking.ts:125-136 | the k-th chronological entry is the k-th oldest point, with the gap to the one before as its duration |
| Activities.ChronologicalHistory | lib/activity-tracking.ts:107-136 | reversing the points puts the current status last and the old statuses, oldest first, before it |
| Activities.ChronologyOfChanges | lib/activity-tracking.ts:107-136 | for any current entry and logged changes, the chronology ends with the current entry and lists the changes' old statuses and times, oldest first, before it |
| Activities.ChronologyGaps | lib/activity-tracking.ts:125-136 | in the reversed points every entry after the first lasts the day-ceiling of the gap to its predecessor |
| Activities.ReversedDurations | lib/activity-tracking.ts:125-136 | computing durations newest first and then reversing equals building the chronology directly |
| Activities.ReversedDurationsAreHistory | lib/activity-tracking.ts:125-136 | the same for the points of a lead and its feed: the result is the status history |
| Activities.ActivityTracker.GetLeadTimeline | lib/activity-tracking.ts:102-138 | the timeline carries the lead id, the lead's feed and the status history of that feed |
| Activities.HistoryChronological | lib/activity-tracking.ts:115-123 | for a newest-first feed the old statuses appear with non-decreasing timestamps |
| Activities.SingleChangeTimeline | lib/activity-tracking.ts:102-137 | one change out of `contacted` for a `replied` lead gives `contacted` at the change, then `replied` at `updated_at` lasting the day-ceiling of the gap |
| Activities.RecentActivities | lib/activity-tracking.ts:156 | the window holds exactly the activities at or after its start, in log order, each as often as in the log |
| Activities.CountKind | lib/activity-tracking.ts:160-162 | the number of activities of a kind never exceeds the window |
| Activities.CountDay | lib/activity-tracking.ts:169-170 | the number of activities on a day never exceeds the window |
| Activities.ThreeKindsBounded | lib/activity-tracking.ts:159-162 | status changes, contact attempts and notes together never exceed the window |
| Activities.KindTallyCounts | lib/activity-tracking.ts:168-172 | the per-type dictionary holds exactly the kinds that occur, each with its count, and its counts sum to the window size |
| Activities.DayTallyCounts | lib/activity-tracking.ts:168-172 | the per-day dictionary holds exactly the days with activity, each with its count, and its counts sum to the window size |
| Activities.Tally | lib/activity-tracking.ts:167-172 | the single pass builds both dictionaries one bump per activity |
| Activities.ActivityTracker.GetActivityStats | lib/activity-tracking.ts:140-175 | total, the three kind counts, and both dictionaries match the window; each dictionary's counts sum to the total; the three counts fit in the total |
| Activities.FirstContactAttempt | lib/activity-tracking.ts:185-186 | none exactly when the feed has no contact attempt; otherwise an attempt from the feed, the latest one when the feed is newest first |
| Activities.StaleCharacterised | lib/activity-tracking.ts:182-194 | covers the filter callback `IsStale`: a lead is stale exactly when it is not a prospect and either all its contact attempts are before the cutoff, or it has none and was contacted before the cutoff |
| Activities.StaleLeads | lib/activity-tracking.ts:178-195 | exactly the stale leads, in input order and each as often as in the input; never a prospect |
| Activities.ActivityTracker.GetStaleLeads | lib/activity-tracking.ts:178-195 | returns the stale leads for the current log and cutoff |
| Activities.CountStatus | lib/activity-tracking.ts:200-203 | a status count never exceeds the number of leads |
| Activities.StatusCountsPartition | lib/activity-tracking.ts:199-206 | the five status counts add up to the number of leads |
| Activities.Percent | lib/activity-tracking.ts:212-215 | a rate is 0 when its denominator is 0 and otherwise the percentage that the part is of the whole; never negative, at most 100 when the part fits in the whole |
| Activities.GetConversionFunnel | lib/activity-tracking.ts:198-218 | the counts per status; a total that plus the rejected count is all leads; the four rates are the percentages contacted/total, replied/contacted, converted/replied and converted/total, 0 on a 0 denominator, the two over the total in [0, 100] |
| Activities.EmptyFunnel | lib/activity-tracking.ts:198-218 | no leads give all-zero counts and rates |
| Storage.Stamp | lib/lead-storage.ts:48-54 | the new lead carries the input's fields, the generated id, and `now` as both timestamps |
| Storage.ApplyPatch | lib/lead-storage.ts:64-68 | each of the fourteen fields takes the patch value when given and keeps the lead's otherwise; `updatedAt` is always `now` |
| Storage.EmptyPatchTouchesOnly | lib/lead-storage.ts:64-68 | an empty patch, even one giving `updatedAt`, only refreshes `updatedAt` |
| Storage.ApplyPatchIdempotent | lib/lead-storage.ts:64-68 | applying a patch twice at the same instant is applying it once |
| Storage.FindIndex | lib/lead-storage.ts:61-62 | -1 exactly when no lead has the id; otherwise the first position holding it |
| Storage.RemoveAt | lib/lead-storage.ts:77 | the elements before the position stay, the ones after shift down by one |
| Storage.RemoveAtKeepsOthers | lib/lead-storage.ts:73-80 | removal keeps the other leads in their order and loses exactly the removed one |
| Storage.Search | lib/lead-storage.ts:82-130 | with `Matches` as the filter callback of lib/lead-storage.ts:84-128: an order-preserving subsequence holding exactly the leads that pass every facet, each as often as in the store |
| Storage.NoFiltersFindAll | lib/lead-storage.ts:84-128 | with no facet given every lead is returned, in order |
| Storage.ZeroRatingBoundIgnored | lib/lead-storage.ts:113-118 | a rating minimum or maximum of 0 gives the same result as no bound |
| Storage.CityIgnoresCase | lib/lead-storage.ts:105-107 | the city facet gives the same answer for any capitalisation of the city asked for |
| Storage.OwnCityMatches | lib/lead-storage.ts:105-107 | a lead always passes the city facet for its own city |
| Storage.KeywordFindsCompany | lib/lead-storage.ts:121-126 | a lead is found by its own company name as keyword |
| Storage.EmptyKeywordFindsAll | lib/lead-storage.ts:121-126 | the empty keyword passes every lead |
| Storage.SearchIdempotent | lib/lead-storage.ts:82-130 | searching a search result with the same facets changes nothing |
| Storage.CountStatus | lib/lead-storage.ts:134-137 | a status count never exceeds the number of leads |
| Storage.FunnelCountsBounded | lib/lead-storage.ts:132-137 | the four funnel counts add up to the store size minus the rejected leads |
| Storage.Industries | lib/lead-storage.ts:152 | the mapped industries are exactly the industries of the leads |
| Storage.BusinessTypes | lib/lead-storage.ts:153 | the mapped business types are exactly those of the leads |
| Storage.Cities | lib/lead-storage.ts:154 | the mapped cities are exactly those of the leads |
| Storage.States | lib/lead-storage.ts:155 | the mapped states are exactly those of the leads |
| Storage.AllTags | lib/lead-storage.ts:156 | the flattened tags are exactly the tags some lead carries |
| Storage.LeadStorage.constructor | lib/lead-storage.ts:21-32 | the store starts with the leads it loaded |
| Storage.LeadStorage.GetAllLeads | lib/lead-storage.ts:40-42 | returns the stored leads |
| Storage.LeadStorage.GetLeadsByStatus | lib/lead-storage.ts:44-46 | exactly the leads with that status, in order, each as often as in the store, as many as the status count |
| Storage.LeadStorage.AddLead | lib/lead-storage.ts:48-58 | appends exactly the stamped lead; all earlier leads are unchanged |
| Storage.LeadStorage.UpdateLead | lib/lead-storage.ts:60-71 | unknown id: null and no change; otherwise only the first matching lead is replaced by its patched version, which is returned |
| Storage.LeadStorage.DeleteLead | lib/lead-storage.ts:73-80 | true exactly when the id is present; then only the first matching lead is removed, otherwise nothing changes |
| Storage.LeadStorage.SearchLeads | lib/lead-storage.ts:82-130 | returns the faceted search of the stored leads |
| Storage.LeadStorage.GetStats | lib/lead-storage.ts:132-148 | the store size and the four funnel counts, which together never exceed the size |
| Storage.LeadStorage.GetAvailableFilterOptions | lib/lead-storage.ts:151-165 | each list holds every value of its field that some lead has, exactly once, and nothing else, in the order the values first appear in the store |
| Util.DistinctFirstOccurrence | lib/lead-storage.ts:151-165 | `[...new Set(values)]` lists the values in the order of their first occurrences |

## Left out

- Persistence is not modelled: loading from and saving to `localStorage` and
  JSON re-parsing. The tracker starts with an empty log, and the store starts
  from the leads it loaded, passed in.
- The singleton `getInstance` accessors are left out. The model works on
  explicit objects.
- Clocks and randomness are not modelled. `Date.now()`, `Math.random()` ids and
  `new Date()` become parameters (`id`, `now`, `start`, `cutoff`).
- The calendar arithmetic that builds the window start (`setDate`, `setMonth`)
  and the stale cutoff is left out. Callers pass the start and cutoff instants.
- Floating point is not modelled. The model uses exact reals, so IEEE
  rounding, `toFixed` display and the rounded `averageRating` of `getStats`
  (NaN on an empty store) are absent.
- Storage.LeadStorage.GetStats: returns the counts only, without
  `averageRating`, because of the floating point above.
- Strings are sequences of characters. Lower-casing covers ASCII letters only.
  UTF-16 code-unit lengths and locale-specific case rules are not modelled.
- Table lookups use the table's own keys only. Inherited JavaScript object
  keys such as `constructor` are not modelled.
- Invalid dates and NaN timestamps are not modelled.
- The ISO date key `YYYY-MM-DD` of the per-day statistics is the UTC day
  number; the textual formatting is left out.
- Activities.ActivityTracker.GetActivityStats: the per-day and per-type counts are maps, so
  the first-seen insertion order of the keys of the `activitiesByDay` and
  `activitiesByType` objects, which `Object.entries` exposes to callers, is
  not modelled.
- Storage.ApplyPatch: a patch field is either given or absent. A key present
  with the value `undefined`, which the object spread copies over the lead's
  field, is not modelled.
- Storage.LeadStorage.GetAllLeads: returns the sequence by value. Aliasing of
  the returned array with the store's own array is not modelled.
- Activities.GetConversionFunnel: modelled as a module function rather than a
  tracker method, because it reads no tracker state.
- The store's lead record keeps only the fields this store reads or writes.
  The remaining fields of the spread object are carried unchanged, and the
  model omits them.
- Partial search filters are simplified. An absent facet list and an empty one
  are the same empty sequence, and an absent city or state is the empty
  string; the code treats both the same way.
- lib/database.ts, lib/lead-service.ts, the React components and the mock data
  are not part of this model.
