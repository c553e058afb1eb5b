# Free-trial detection and reminders: a verified model

This project models the decision logic of a service that finds free trials in a
user's inbox and bank transactions and then reminds the user before each trial
ends. It has one Dafny module per backend library file, plus `Common` for
shared definitions:

- `Confidence` (`confidence.dfy`) scores one trial. The score starts at a
  floor set by the trial's source. Three boosts are added in a fixed order,
  each capped at 1.0. An outdated end date costs a penalty, and the result is
  clamped to [0.1, 1.0]. The score goes into a high/medium/low bucket and a
  reasoning trail is kept. The module also merges an email trial with a
  financial trial, and models the display helpers and the visibility gate.
- `Gmail` (`gmail.dfy`) extracts a trial from an e-mail. A gate decides
  whether the e-mail is about a trial. Four "first match wins" scans over
  ordered pattern tables then find the service, end date, cancel URL and
  amount. The confidence is additive and capped. The module also models the
  default end date used when the row is stored.
- `Plaid` (`plaid.dfy`) covers bank transactions:
  - merchant-token lookup;
  - the likely-trial gate;
  - the trial-length table;
  - the classification loop that turns transactions into candidates;
  - the duplicate check before a candidate is inserted.
- `TestUtils` (`test_utils.dfy`) covers the end-to-end tester:
  - the exhaustive pairwise duplicate scan;
  - the detection statistics;
  - the flow runner that appends results;
  - the test summary.
- `Notifications` (`notifications.dfy`) covers reminders:
  - the notification table and its status rule;
  - the SMS and push link choices;
  - the per-channel send loop with its sent/failed accounting;
  - channel selection from preferences;
  - the daily reminder job, including its recent-reminder skip test, which
    never fires as written.
- `Calendar` (`calendar.dfy`) covers calendar reminders:
  - the reminder date and its duration;
  - the popup overrides;
  - the partial update body;
  - the token-refresh trigger;
  - the reminder loop, and the lookup, update and delete of stored reminder
    events.

These modelling choices apply throughout:

- **Oracles.** Everything the code gets from libraries or the network is a
  parameter:
  - the regular-expression engine, `new Date(string)` and `parseFloat`;
  - the mail, SMS and push providers;
  - the calendar and OAuth answers;
  - "now".
- **Numbers and time.** Confidences and amounts are exact `real`s. Instants
  are integers counting milliseconds. Stored date columns are day numbers.
- **Tables.** Database tables are sequences of rows held by classes
  (`TrialsTable`, `NotificationStore`, `CalendarStore`). The methods that
  insert or update a row change them in place.

Where the code reassigns locals rule by rule or loops over a list, the model
is a method with loop invariants. Each such method is proved equal to a
specification function, and the properties are proved about that function.

A financial trial found at confidence 0.3, with no cancel URL, no amount and
no known service, is shown while its end date is recent. Otherwise it scores
0.4 and is hidden. The reason is that the financial source rule first raises
the score to 0.6 (`Confidence.LowFinancialTrialVisibility`).

Two defects of the code are recorded under "## Findings". The operations
model the code as written: the reminder job never skips a trial, and
calendar reminder events end when they start. The corrected behaviour is
defined and proved beside them, in lemmas whose rows say "corrected".

## Model

| member | source | states |
|---|---|---|
| Common.OrOpt | backend/lib/plaid.ts:219 | `a \|\| b` on optional strings is truthy exactly when one side is |
| Common.ContainsAt | backend/lib/plaid.ts:114 | `includes` is true exactly when some position starts a copy of the token |
| Common.FirstSomeAt | backend/lib/gmail.ts:156-165 | a scan that breaks on the first hit returns entry k when k is the first entry with a value |
| Common.FirstSomeNone | backend/lib/gmail.ts:168-180 | a scan finds nothing exactly when no entry yields a value |
| Common.FirstSomeWitness | backend/lib/gmail.ts:183-192 | a found value is some entry's value, and every earlier entry yielded none |
| Common.TrialsTable.Insert | backend/lib/plaid.ts:305-316 | an insert appends exactly the given row and returns its position as id |
| Confidence.Clamp | backend/lib/confidence.ts:89-91 | the clamped score lies in [0.1, 1.0]; in-range scores are unchanged, low ones become 0.1, high ones 1.0 |
| Confidence.Bucket | backend/lib/confidence.ts:93-101 | high iff score ≥ 0.8, medium iff 0.5 ≤ score < 0.8, low iff score < 0.5 |
| Confidence.TrailMember | backend/lib/confidence.ts:46-87 | a line is in the trail exactly when its rule fired |
| Confidence.TrailRanked | backend/lib/confidence.ts:46-87 | the trail is in rule order with no repeated line |
| Confidence.TrialTrailLength | backend/lib/confidence.ts:46-87 | the trail has one line per boost or penalty that fired, one source line, and the base line iff the confidence is non-zero |
| Confidence.TrailExplains | backend/lib/confidence.ts:46-87 | the trail lists exactly the rules that fired, each once, in rule order |
| Confidence.ApplySourceRule | backend/lib/confidence.ts:52-65 | the four-way source branch raises the score to the source's floor and writes that branch's line |
| Confidence.ApplyBoost | backend/lib/confidence.ts:67-81 | one boost adds its amount, caps at 1.0 and writes its line only when its factor holds |
| Confidence.CalculateTrialConfidence | backend/lib/confidence.ts:28-105 | the factors of the trial; overall is the score function, lies in [0.1, 1.0], and has the matching bucket; the reasoning is the trail of the rules that fired |
| Confidence.CombineTrialSources | backend/lib/confidence.ts:111-152 | the merged factors, and a combined confidence equal to the combined-score function and inside [0.1, 1.0] |
| Confidence.SingleTrialHasOneSource | backend/lib/confidence.ts:29-41 | exactly one source flag holds for one trial, so the both-sources branch is unreachable |
| Confidence.SourceRuleRaisesToFloor | backend/lib/confidence.ts:52-65 | the source rule gives max(confidence, 0.8 / 0.6 / 0.9) for email / financial / manual; it never adds |
| Confidence.BoostNeverLowers | backend/lib/confidence.ts:67-81 | a boost never lowers a score ≤ 1.0 and never passes 1.0; when it fires it gives min(score + amount, 1.0) |
| Confidence.BoostsBounds | backend/lib/confidence.ts:67-81 | the three boosts together never lower the score and stay ≤ 1.0 |
| Confidence.PenaltyEffect | backend/lib/confidence.ts:83-91 | an outdated date turns the pre-penalty score S into clamp(max(S − 0.2, 0.1)); a recent one leaves clamp(S) |
| Confidence.OutdatedCostsExactlyPointTwo | backend/lib/confidence.ts:83-87 | moving only the end date out of the window lowers the score by exactly 0.2 |
| Confidence.RecentTrialIsShown | backend/lib/confidence.ts:201-208 | a trial with a recent end date is always shown |
| Confidence.HiddenOnlyIfWeakOutdatedFinancial | backend/lib/confidence.ts:201-208 | a hidden trial is financial, has an outdated date, no cancel URL, no known service, and confidence < 0.7 |
| Confidence.LowFinancialTrialVisibility | backend/lib/confidence.ts:201-208 | a financial trial at 0.3 with nothing else is shown iff its date is recent; otherwise it scores 0.4 |
| Confidence.DisplayFollowsBucket | backend/lib/confidence.ts:169-199 | colour and badge text change at the same 0.8 and 0.5 thresholds as the recommendation, in both directions |
| Confidence.CombineStartValues | backend/lib/confidence.ts:131-140 | the combined start is 1.0 with both trials, the email confidence or 0.8, the financial confidence or 0.6, or 0 with neither |
| Confidence.CorroborationScore | backend/lib/confidence.ts:131-150 | two corroborating trials score 1.0 with a recent date and 0.8 with an outdated one |
| Confidence.RecencyPrefersEmail | backend/lib/confidence.ts:115-129 | recency is judged on the email trial's end date when it has one |
| Confidence.CombinedKnownService | backend/lib/confidence.ts:115-129 | the known-service factor holds iff either trial names a reliable service |
| Confidence.NoSourcesScoresFloor | backend/lib/confidence.ts:131-150 | with neither trial the combined confidence is the floor 0.1 |
| Gmail.ParseTrialEmail | backend/lib/gmail.ts:139-223 | null iff the trial gate fails; otherwise the first-match service or "Unknown Service", first-match date, cancel URL and amount, the capped additive confidence in [0.6, 1.0], and the raw data with the body cut to 2000 characters (Unicode scalar values, not UTF-16 units) |
| Gmail.ScanService | backend/lib/gmail.ts:155-165 | the service loop returns the first entry whose pattern matches the sender, subject or body |
| Gmail.ScanDate | backend/lib/gmail.ts:167-180 | the date loop returns the first capture that parses as a date |
| Gmail.ScanCancelUrl | backend/lib/gmail.ts:182-192 | the cancel-URL loop returns the first capture from the HTML |
| Gmail.ScanAmount | backend/lib/gmail.ts:194-206 | the amount loop returns the first capture that parses as a number |
| Gmail.ServiceIsFirstMatch | backend/lib/gmail.ts:155-165 | the service is entry k's capitalised key exactly when entry k matches and no earlier entry does (the keys are distinct lower-case words) |
| Gmail.UnknownServiceIffNoMatch | backend/lib/gmail.ts:155-165 | no service is found (and no +0.2 is added) iff no pattern matches the sender, subject or body |
| Gmail.EndDateOrigin | backend/lib/gmail.ts:167-180 | a found end date is the parse of the body's capture, or of the subject's when the body has no match |
| Gmail.UnparsableAmountsSkipped | backend/lib/gmail.ts:194-206 | when every capture fails to parse, no amount is found |
| Gmail.NoHtmlNoCancelUrl | backend/lib/gmail.ts:182-192 | without an HTML part there is no cancel URL |
| Gmail.EmailConfidenceRange | backend/lib/gmail.ts:157-214 | the confidence lies in [0.6, 1.0], is 0.6 iff nothing matched, and is 1.0 once a service and two more fields are found |
| Gmail.DefaultEmailEnd | backend/lib/gmail.ts:314 | a missing end date is stored as the day seven days after today |
| Gmail.SaveTrialsFromEmails | backend/lib/gmail.ts:303-338 | every parsed e-mail is inserted in order as its row, and the ids returned are the new rows' positions |
| Plaid.IdentifyServiceFromMerchant | backend/lib/plaid.ts:110-122 | the nested loop returns the service of the first table row with a token in the merchant |
| Plaid.ServiceFromTokens | backend/lib/plaid.ts:110-122 | a resolved service is the capitalised key of a row one of whose tokens occurs in the upper-cased merchant |
| Plaid.NoTokenNoService | backend/lib/plaid.ts:110-122 | a merchant containing no token of any row resolves to nothing |
| Plaid.TrialLength | backend/lib/plaid.ts:154-173 | the listed length for the lower-cased service, else 14, always 7, 14 or 30 days |
| Plaid.EstimateTrialPeriod | backend/lib/plaid.ts:147-178 | the period starts on the transaction date and ends the trial length later, so at least seven days after |
| Plaid.ResolvedServiceHasListedLength | backend/lib/plaid.ts:110-122 | every service the merchant table resolves to has its own listed trial length |
| Plaid.ClassifyContract | backend/lib/plaid.ts:214-258 | a candidate exists iff the gate holds and a service resolves; its confidence lies in [0.6, 1.0] and is 1.0 iff the merchant name itself resolves and the amount is typical; its amount is \|amount\|; its period starts on the transaction date; its merchant falls back to the owner, then to "Unknown" |
| Plaid.ClassifyTransaction | backend/lib/plaid.ts:216-257 | the loop body yields the candidate the classification function gives |
| Plaid.ClassifyTransactions | backend/lib/plaid.ts:214-260 | the loop's output is the candidates of the transactions, in transaction order |
| Plaid.ClassifyAllLength | backend/lib/plaid.ts:214-260 | there are no more candidates than transactions |
| Plaid.ClassifyAllAppend | backend/lib/plaid.ts:214-260 | classifying two batches in turn gives the concatenation of their candidates |
| Plaid.ClassifyAllMember | backend/lib/plaid.ts:214-260 | a candidate is in the output iff some transaction yields it |
| Plaid.DefaultFinancialEnd | backend/lib/plaid.ts:277-278 | a missing end is stored as the day fourteen days after today |
| Plaid.SaveTrialsFromTransactions | backend/lib/plaid.ts:263-322 | the table becomes the save-step fold over the candidates; each id returned is a new row's position |
| Plaid.CountMatchingZero | backend/lib/plaid.ts:290-303 | the duplicate lookup finds nothing iff no stored financial row has the same user, service and start day |
| Plaid.CountMatchingAtMostOne | backend/lib/plaid.ts:290-303 | in a table without duplicate financial trials the lookup finds at most one row |
| Plaid.SaveStepInvariant | backend/lib/plaid.ts:290-316 | one save step keeps the table free of duplicate financial trials, records the candidate and only appends |
| Plaid.RecordedStays | backend/lib/plaid.ts:290-316 | appending rows never un-records a trial |
| Plaid.SaveAllInvariant | backend/lib/plaid.ts:263-322 | saving a batch keeps the table free of duplicates, only appends, and records every candidate |
| TestUtils.FindDuplicateTrials | backend/lib/test-utils.ts:426-452 | the reported records are, in order, those of the index pairs the nested loops visit where the two trials are duplicates |
| TestUtils.ComparePairsOf | backend/lib/test-utils.ts:432-448 | the inner loop reports the pairs (i, j) of row i, in increasing j |
| TestUtils.ReportedSnoc | backend/lib/test-utils.ts:435-440 | pushing a pair's record extends the reported list by that pair |
| TestUtils.RowPairsMember | backend/lib/test-utils.ts:432-448 | row i reports (a, b) iff a = i < b < bound and the two trials are duplicates |
| TestUtils.PairsBelowMember | backend/lib/test-utils.ts:429-449 | the rows before i report (a, b) iff a < i, a < b < n, and the two trials are duplicates |
| TestUtils.DuplicateMember | backend/lib/test-utils.ts:429-449 | a pair is reported iff a < b < n and the trials share a lower-cased service name and end within seven days: no self-pairs, no transitive merging |
| TestUtils.RowPairsBounds | backend/lib/test-utils.ts:432-448 | every pair of row i is (i, j) with i < j < bound |
| TestUtils.PairsBelowBounds | backend/lib/test-utils.ts:429-449 | every pair of the rows before i starts before i |
| TestUtils.RowPairsSorted | backend/lib/test-utils.ts:432-448 | row i comes out in increasing j |
| TestUtils.PairsBelowSorted | backend/lib/test-utils.ts:429-449 | the rows before i come out in strictly increasing (a, b) order |
| TestUtils.DuplicatesSorted | backend/lib/test-utils.ts:429-449 | pairs come out strictly in lexicographic order, so none is reported twice |
| TestUtils.RowPairsCount | backend/lib/test-utils.ts:432-448 | row i reports at most bound − i − 1 pairs |
| TestUtils.PairsBelowCount | backend/lib/test-utils.ts:429-449 | the rows before i report no more than the pairs those rows could form |
| TestUtils.DuplicateCount | backend/lib/test-utils.ts:429-449 | at most n(n − 1)/2 pairs are reported |
| TestUtils.DetectionStatsOf | backend/lib/test-utils.ts:174-187 | the bands partition the trials, as do the three sources, and active trials are at most all trials |
| TestUtils.BandPartition | backend/lib/test-utils.ts:177-180 | every trial is in exactly one band at 0.8 and 0.5 |
| TestUtils.SourcePartition | backend/lib/test-utils.ts:181-183 | every trial has exactly one of the three sources |
| TestUtils.ActiveBound | backend/lib/test-utils.ts:184 | no more active trials than trials |
| TestUtils.PassedBound | backend/lib/test-utils.ts:461-462 | no more passed results than results |
| TestUtils.IssuesCountFailures | backend/lib/test-utils.ts:465-468 | one critical issue per failed result |
| TestUtils.SummaryAccounts | backend/lib/test-utils.ts:454-477 | passed + failed = total, one issue per failure, and the total duration is the sum |
| TestUtils.PassedAppend | backend/lib/test-utils.ts:461-462 | passed counts of two runs add up |
| TestUtils.TotalDurationAppend | backend/lib/test-utils.ts:464 | durations of two runs add up, a missing duration counting 0 |
| TestUtils.CriticalIssuesAppend | backend/lib/test-utils.ts:465-468 | issues of two runs concatenate in result order |
| TestUtils.SummaryOfOne | backend/lib/test-utils.ts:461-468 | one result is counted as passed or listed as one "step: error" issue, and adds its own duration |
| TestUtils.EndToEndTester.constructor | backend/lib/test-utils.ts:20-26 | a tester starts with its user and no results |
| TestUtils.EndToEndTester.RunFullFlowTest | backend/lib/test-utils.ts:390-424 | exactly one result per probe is appended, in the fixed order of the eight probes, and the whole list is returned |
| TestUtils.EndToEndTester.GetTestSummary | backend/lib/test-utils.ts:454-477 | passed counts the successful results and failed the rest, passed + failed = total = number of results; the critical issues are the failed steps' "step: error" lines in result order, one per failure; the duration is the sum |
| Notifications.WithStatus | backend/lib/notifications.ts:164-184 | the new status is set; `sent_at` is set (to now) iff the status is sent or delivered; a truthy error message replaces the old one; nothing else changes |
| Notifications.NotificationStore.constructor | backend/lib/notifications.ts:132-162 | the notifications table starts empty |
| Notifications.NotificationStore.SaveNotification | backend/lib/notifications.ts:132-162 | a save appends the row and returns its position |
| Notifications.NotificationStore.UpdateNotificationStatus | backend/lib/notifications.ts:164-184 | an update rewrites exactly the named row by the status rule; an unknown id changes nothing |
| Notifications.PushUrl | backend/lib/notifications.ts:271 | the push link is the cancel URL when present, else the dashboard URL, never empty |
| Notifications.SmsCancelChoice | backend/lib/notifications.ts:257 | the SMS names the cancel URL when there is one, else the fallback sentence |
| Notifications.SendOne | backend/lib/notifications.ts:289-389 | one channel's attempt: a missing contact fails without a row; otherwise the row is saved, sent, and settled as sent or failed |
| Notifications.SendTrialReminder | backend/lib/notifications.ts:276-392 | sent and failed lines are those of the channels' attempts, and the table gains their settled rows |
| Notifications.EveryChannelAccounted | backend/lib/notifications.ts:289-391 | \|sent\| + \|failed\| = number of requested channels |
| Notifications.MissingContactFails | backend/lib/notifications.ts:296-299 | a missing email, phone or push permission gives one failed line and saves nothing |
| Notifications.SavedRowsSettled | backend/lib/notifications.ts:378-384 | every saved row is a trial reminder for its channel, settled as sent (with `sent_at` now) or failed |
| Notifications.SavedRowsBound | backend/lib/notifications.ts:289-389 | at most one row per channel, and a sent line only for a saved row |
| Notifications.ChannelSelection | backend/lib/notifications.ts:438-446 | one to three channels in the order email, sms, push; each included exactly by its preference rule; email alone when none is wanted |
| Notifications.SelectChannels | backend/lib/notifications.ts:438-446 | the pushes build exactly the selected channel list |
| Notifications.SelectedPushIsEnabled | backend/lib/notifications.ts:438-453 | push is selected iff it is enabled for the send, and a selected sms has a phone |
| Notifications.JoinAsWritten | backend/lib/notifications.ts:406-415 | the join as written yields one row per notification |
| Notifications.Join | backend/lib/notifications.ts:406-415 | the corrected join yields one row per notification |
| Notifications.AsWrittenNeverSkips | backend/lib/notifications.ts:411-433 | as written, no trial is ever skipped as recently reminded |
| Notifications.JoinSkipsIffRecent | backend/lib/notifications.ts:425-433 | with the type selected, a trial is skipped iff it has a trial reminder created within the last day |
| Notifications.RemindedAnHourAgo | backend/lib/notifications.ts:411-433 | a reminder an hour old: the corrected join skips the trial, the join as written does not |
| Notifications.SentReminderSuppressesNext | backend/lib/notifications.ts:276-433 | (corrected join) rows a reminder leaves make the trial skipped for the next day |
| Notifications.RemindTrial | backend/lib/notifications.ts:425-457 | one trial of the job as written: the skip test runs on the rows the query at line 411 returns, then its reminder goes out on the selected channels with its counts and rows |
| Notifications.TotalsStep | backend/lib/notifications.ts:448-457 | the totals over one more trial add that trial's counts and rows |
| Notifications.CheckTrialsForReminders | backend/lib/notifications.ts:395-467 | the job as written: processed is the number of fetched trials (0 when none); sent and failed are the sums over the trials the skip test lets through (all of them, `AsWrittenRemindsEveryTrial`); the table gains their rows in order |
| Notifications.AsWrittenRemindsEveryTrial | backend/lib/notifications.ts:411-467 | as written every fetched trial is reminded, and sent + failed is the number of channels requested over all trials, between one and three per trial |
| Notifications.AsWrittenRemindsAgain | backend/lib/notifications.ts:411-457 | as written, a trial reminded in one run is not skipped by a later run, which sends and saves its reminder again |
| Notifications.TotalsAccountForChannels | backend/lib/notifications.ts:448-467 | for either query, sent + failed covers every channel of every trial not skipped, one to three per trial |
| Notifications.AllSkippedSendsNothing | backend/lib/notifications.ts:425-467 | for either query, when every trial counts as reminded within a day, nothing is sent, failed or saved (as written only an empty batch qualifies) |
| Notifications.SecondRunSkips | backend/lib/notifications.ts:425-467 | (corrected join) a trial reminded in one run is skipped by a run within the following day, which sends and saves nothing |
| Calendar.ReminderDate | backend/lib/calendar.ts:241-245 | the reminder falls on the day two days before the trial end, at 09:00:00.000 |
| Calendar.ReminderBeforeEnd | backend/lib/calendar.ts:241-245 | the reminder comes between 39 and 63 hours before the end instant |
| Calendar.HalfDayEventIsEmpty | backend/lib/calendar.ts:262 | the end as written equals the start |
| Calendar.ReminderEventSpan | backend/lib/calendar.ts:258-264 | (corrected end) the event lasts twelve hours and ends at 21:00 on its own day |
| Calendar.OverridesRoundTrip | backend/lib/calendar.ts:103-109 | the overrides are popups giving back the supplied minutes in order, or one 2880-minute popup when none are supplied |
| Calendar.BuildUpdateData | backend/lib/calendar.ts:163-187 | the field-by-field build gives the update-body function |
| Calendar.UpdateDataKeys | backend/lib/calendar.ts:163-187 | the body sets a key exactly for each supplied, truthy field, with that field's value |
| Calendar.RefreshKeepsIdentity | backend/lib/calendar.ts:73-87 | a refresh keeps the row's id and refresh token, happens only when due, and stores the new access token |
| Calendar.TokenStepIdempotent | backend/lib/calendar.ts:73-87 | a second token check in the same run leaves the account as the first left it |
| Calendar.FreshTokenNotRefreshedAgain | backend/lib/calendar.ts:73-87 | a token stored with a later expiry is not refreshed again |
| Calendar.MatchingMember | backend/lib/calendar.ts:336-346 | a position matches iff it holds a row of the user's trial |
| Calendar.MatchingSorted | backend/lib/calendar.ts:336-346 | matching positions are strictly increasing and in range |
| Calendar.Single | backend/lib/calendar.ts:336-346 | `.single()` yields a position in range |
| Calendar.SingleIsTheOnlyRow | backend/lib/calendar.ts:336-346 | a single lookup finds a row of the trial and it is the only one; nothing is found when there is none or more than one |
| Calendar.ReminderIdsAppend | backend/lib/calendar.ts:314-325 | ids over two runs of trials concatenate |
| Calendar.FailedTrialSkipped | backend/lib/calendar.ts:314-325 | a trial that fails or yields no id adds nothing and stops nothing |
| Calendar.ReminderIdsFromCalendar | backend/lib/calendar.ts:314-325 | no more ids than trials, and each is a non-empty id the calendar returned for one of the trials |
| Calendar.NoAccountNoIds | backend/lib/calendar.ts:60-71 | without a connected calendar no id is collected and no row is stored |
| Calendar.CreateAndUpdateAgree | backend/lib/calendar.ts:241-264 | creation and update send the same start and end (the end as written) for the same trial end, with the three trial popups |
| Calendar.CalendarStore.constructor | backend/lib/calendar.ts:60-67 | the store holds the given account and rows |
| Calendar.CalendarStore.AccessToken | backend/lib/calendar.ts:60-87 | no account gives the no-account error; otherwise the account is refreshed when due and its token returned |
| Calendar.CalendarStore.CreateCalendarEvent | backend/lib/calendar.ts:54-123 | the insert is sent the event body and its id is returned; no account is an error |
| Calendar.CalendarStore.UpdateCalendarEvent | backend/lib/calendar.ts:125-194 | the update body is sent and returned, or the calendar's error |
| Calendar.CalendarStore.DeleteCalendarEvent | backend/lib/calendar.ts:196-235 | the delete is attempted with a refreshed token; its error is passed on |
| Calendar.CalendarStore.CreateTrialReminderEvent | backend/lib/calendar.ts:237-293 | the outcome and the stored row are those of the trial's reminder, whose insert request ends at the start as the code writes it; an unreadable end date throws and stores nothing; the account is refreshed when due only if the end date was readable |
| Calendar.CalendarStore.CreateTrialRemindersForUser | backend/lib/calendar.ts:295-326 | every trial gets an attempt; the ids are those collected in trial order; the table gains the rows of the successful ones; the account is refreshed when due once some end date was readable |
| Calendar.CalendarStore.UpdateTrialReminder | backend/lib/calendar.ts:328-364 | no single row with an external id is "not found"; otherwise, with no account nothing changes; with one, the patch (start and the end as written) is sent and, on success only, the row's date moves to the new reminder date |
| Calendar.CalendarStore.DeleteTrialReminder | backend/lib/calendar.ts:366-398 | no stored event is a no-op; the external delete is attempted only with an external id; the row is removed even when the external delete fails |

## Left out

- Network and storage: every Gmail, Plaid, Google Calendar, Resend, Twilio,
  OneSignal and database call is a parameter of the model (its answer) or an
  in-memory table. Every database write is taken to succeed: the insert
  failures that log and skip a candidate (gmail.ts:321-330,
  plaid.ts:305-314) and the query failures that log and return early are
  not modelled.
- OAuth helpers are thin wrappers over libraries. This covers the calendar
  client factories, the auth URL, the code exchange and the token refresh
  request itself; only the refresh trigger and its stored result are modelled.
- The regular-expression engine, `new Date(string)`, `parseFloat` and
  `toISOString` are oracles. The model does not give their semantics.
- Floating point: confidences and amounts are exact reals. IEEE-754
  rounding near a threshold (0.6 + 0.2 against 0.8) is not modelled.
- Time zones: local time is taken to be UTC. Month and year arithmetic for
  the recency window comes in with the clock, as the date library computes
  it.
- Case mapping covers only the ASCII letters.
- Gmail.ParseTrialEmail: strings are sequences of Unicode scalar values,
  while `body.substring(0, 2000)` at gmail.ts:219 counts UTF-16 code units.
  On text outside the Basic Multilingual Plane the model keeps more of the
  body than the source does, and it never splits a surrogate pair. Substring
  tests are unaffected on well-formed text.
- `raw_data` is not kept in the trials table model: the rows written by
  `Gmail.SaveTrialsFromEmails` (gmail.ts:318) and
  `Plaid.SaveTrialsFromTransactions` (plaid.ts:281-287) omit that stored
  evidence.
- Template text: the e-mail body, SMS wording and push title are
  presentation. Only the cancel-URL and dashboard choices are kept, and the
  calendar event description is an oracle of the trial.
- The eight connection and security probes of the end-to-end tester, the
  mock-data generators and `testNotificationSending` need live services.
  The flow runner takes their outcomes as input.
- `Calendar.CalendarStore.AccessToken`: the refresh request is taken to
  succeed. A failed refresh, which the source lets throw, is not modelled.
- The HTTP route handlers, the cron scheduler and the frontend are outside
  these library files.

## Findings

| source | as written | input that shows it | evidently intended | confidence | as-written member | corrected member |
|---|---|---|---|---|---|---|
| backend/lib/calendar.ts:262 | `addDays(reminderDate, 0.5)` truncates the half day, so the reminder event ends when it starts (also at line 354) | any trial end; the event start and end are equal | a twelve-hour event from 09:00 to 21:00, as the comment says | not executed | Calendar.HalfDayEventIsEmpty | Calendar.ReminderEventSpan |
| backend/lib/notifications.ts:411 | the join selects only `created_at` from `notifications`, so `n.type` is undefined and the recent-reminder skip at 426-433 never fires | a trial with a trial reminder created an hour ago is reminded again | also select `type`, so a trial reminded within a day is skipped | not executed | Notifications.AsWrittenRemindsAgain | Notifications.SecondRunSkips |
