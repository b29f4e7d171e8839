# DSA Grinders — a verified model of the tracker's core rules

DSA Grinders is a Next.js app. It tracks its members' LeetCode progress, scores each day's new solves and nags the members by e-mail and WhatsApp. This project models in Dafny the parts of its server code that decide something. Each part is listed below with its module.

- **`LeetCode`** (`leetcode.dfy`) models the daily-stats pipeline of `src/lib/leetcode.ts`:
  - the streak walk over the submission calendar;
  - the normalisation of the GraphQL profile reply into tier counts and recent submissions, or into one of its two errors;
  - the weighted daily score (Easy 1, Medium 3, Hard 6) measured against the latest snapshot dated before today;
  - the upsert of today's row into the `DailyStat` collection, keyed uniquely by (user, date).
- **`Cron`** (`cron.dfy`) models the scheduled automation of `src/app/api/cron/route.ts`:
  - the secret check;
  - the settings row: it is loaded, its schedule is migrated and its counters are reset on a new day;
  - the "HH:MM" schedule match within 15 minutes, the skip-day gate and the per-channel eligibility;
  - the sweep over the users. It refreshes each user's stats and sends within the daily quota;
  - the final write of the counters and the summary.
- **`RateLimit`** (`rate_limit.dfy`) models the in-memory fixed-window limiter of `src/lib/rateLimit.ts`:
  - the per-key window check;
  - the sweep that drops expired windows;
  - the client identifier taken from the proxy headers.
- **`Auth`** (`auth.dfy`) models `src/lib/auth.ts`:
  - the bearer-token parse;
  - the two ways a token resolves to a user (a manual admin session, or a Supabase user looked up by e-mail);
  - the profile-completeness predicate;
  - the `requireAuth` and `requireAdmin` decisions.
- **`Profile`** (`profile.dfy`) models the profile update of `src/app/api/users/profile/route.ts`:
  - the update payload;
  - the GitHub and LinkedIn link normalisation and the phone clean-up;
  - the response branches and the classification of a failed first stats sync.
- **`SendRoasts`** and **`SendMessages`** (`send_roasts.dfy`, `send_messages.dfy`) model the two admin broadcast loops. Each loop tallies sent, failed and skipped messages per channel and collects the errors.
- **`Common`** (`common.dfy`) holds the JavaScript notions the modules share: `Option`, `Result`, truthiness, `trim`, `split`, `includes`, `startsWith` and `\s`.

Where the code does something in place, the model does too:
- the `DailyStat` collection, the settings table, the rate-limit `Map` and the users table are classes whose methods modify their fields;
- the loops (the streak walk, the cron sweep, the cleanup and the two broadcast loops) are `while` loops. Each is proved equal to a recursive specification function, and the properties are lemmas about those functions.

The inputs are the clock, the server's time-zone offset and the following oracles:
- the replies of LeetCode, of the JWT check and of Supabase;
- the users table;
- the outcome of every stats refresh and every send.

## Model

| member | source | states |
|---|---|---|
| LeetCode.SortDescending | src/lib/leetcode.ts:12 | the keys are reordered, never added or dropped: the result is a permutation of the input |
| LeetCode.SortDescendingOrders | src/lib/leetcode.ts:12 | `sort((a, b) => b - a)` leaves the timestamps in descending order |
| LeetCode.DayStart | src/lib/leetcode.ts:19 | `t - t % 86400` is the start of the UTC day holding `t`, and `t` lies within 86400 seconds after it |
| LeetCode.DayStartMatch | src/lib/leetcode.ts:28-31 | comparing day starts in seconds against the cursor (or the day before it) is comparing day numbers |
| LeetCode.CalculateStreak | src/lib/leetcode.ts:7-45 | the loop over the sorted timestamps returns the streak `Streak` of the calendar: 0 for a missing, unparseable or empty calendar or a stale newest key, otherwise the walk from today |
| LeetCode.CountStreakDays | src/lib/leetcode.ts:25-38 | the loop comparing day starts in seconds computes the day-number walk `Walk` from today |
| LeetCode.StreakBound | src/lib/leetcode.ts:25-38 | the streak never exceeds the number of calendar keys |
| LeetCode.StreakOfStaleCalendar | src/lib/leetcode.ts:22-23 | when every key is before the start of yesterday the streak is 0 |
| LeetCode.StreakOfTodayOnly | src/lib/leetcode.ts:30-34 | keys only on the current day never count: the streak is 0 |
| LeetCode.StreakOfTodayAndYesterday | src/lib/leetcode.ts:30-34 | activity only today and yesterday gives a streak of exactly 1 |
| LeetCode.StreakSound | src/lib/leetcode.ts:27-38 | a streak of n means some key falls on each of the n days before today |
| LeetCode.StreakComplete | src/lib/leetcode.ts:27-38 | with no key after today, a key on each of the n days before today gives a streak of at least n: the walk stops only at a gap |
| LeetCode.TierCount | src/lib/leetcode.ts:102-105 | a tier count is the count of the first entry with that difficulty, and 0 when there is none |
| LeetCode.Recent | src/lib/leetcode.ts:126-130 | the recent submissions keep the length and order of the reply's list, each entry with its title, slug and timestamp |
| LeetCode.FetchLeetCodeStats | src/lib/leetcode.ts:88-138 | the result is the normalisation of the reply, with the streak computed from that reply's calendar |
| LeetCode.NormalizeFailures | src/lib/leetcode.ts:92-99 | a reply without a matched user fails as an unknown handle, and one with missing or empty accepted counts fails as unavailable stats (both directions) |
| LeetCode.NormalizeCounts | src/lib/leetcode.ts:101-105 | easy, medium, hard and total are each read from their own difficulty entry; the total is not a sum of the tiers |
| LeetCode.NormalizeRecent | src/lib/leetcode.ts:109-130 | `lastSubmission` is null exactly when the recent list is empty and is otherwise its first timestamp; the recent list keeps length and order |
| LeetCode.Points | src/lib/leetcode.ts:156-173 | the day's points are never negative |
| LeetCode.PointsPerTier | src/lib/leetcode.ts:159-173 | each tier is floored at zero on its own: the points are at least each tier's weighted gain, and 0 when no tier rose |
| LeetCode.PointsExample | src/lib/leetcode.ts:161-164 | two more Easy and one more Medium score 2·1 + 1·3 = 5 |
| LeetCode.Titles | src/lib/leetcode.ts:185 | `recentProblems` holds the titles of the recent submissions, in order |
| LeetCode.MaxDate | src/lib/leetcode.ts:149-152 | the latest of a non-empty set of dates is in the set and no date of the set is later |
| LeetCode.LatestBefore | src/lib/leetcode.ts:149-152 | there is no earlier snapshot exactly when the user has no row dated before today |
| LeetCode.SyncKeepsBaseline | src/lib/leetcode.ts:149-194 | writing today's row leaves the latest earlier snapshot, the points' baseline, as it was |
| LeetCode.ResyncKeepsPoints | src/lib/leetcode.ts:146-173 | re-syncing the same day with unchanged upstream data records the same points |
| LeetCode.ResyncStable | src/lib/leetcode.ts:175-194 | from the second sync of a day on, repeating the sync changes nothing in the store |
| LeetCode.ResyncPreviousTotal | src/lib/leetcode.ts:157-186 | `previousTotal` is the fresh total on an insert and the earlier snapshot's total on a re-sync |
| LeetCode.FirstSnapshot | src/lib/leetcode.ts:166-170 | a user's first snapshot scores 0 points and is its own baseline |
| LeetCode.DailyStatStore.LatestSnapshot | src/lib/leetcode.ts:149-152 | the query `date < today`, sorted by date descending and limited to one, finds the latest earlier snapshot |
| LeetCode.DailyStatStore.UpdateDailyStatsForUser | src/lib/leetcode.ts:140-195 | a failed fetch throws and writes nothing; otherwise only the row (user, today) changes, to the scored snapshot, which is returned |
| Cron.ToNumberDigits | src/app/api/cron/route.ts:71 | `Number` reads a string of decimal digits as its decimal value |
| Cron.MinutesOfDigits | src/app/api/cron/route.ts:71-72 | "HH:MM" with digit parts is read as HH·60 + MM minutes |
| Cron.AnyWithin | src/app/api/cron/route.ts:70-74 | `some` is true exactly when some entry is within 15 minutes |
| Cron.IsTimeToSend | src/app/api/cron/route.ts:55-75 | always true in development mode; false for a missing or empty schedule; otherwise true exactly when some entry is within 15 minutes of the current minute of the day |
| Cron.SlotWindow | src/app/api/cron/route.ts:67-74 | a one-slot "HH:MM" schedule fires exactly within 15 minutes of the slot, both ends included |
| Cron.NoMidnightWrap | src/app/api/cron/route.ts:68-73 | there is no wrap-around at midnight: a slot at 23:45 or later never fires in the first quarter hour of the day |
| Cron.Weekday | src/app/api/cron/route.ts:14 | the weekday is between 0 (Sunday) and 6 (Saturday) |
| Cron.WeekdayNext | src/app/api/cron/route.ts:14 | the next local day has the next weekday, Saturday (6) wrapping to Sunday (0) |
| Cron.FirstWeekend | src/app/api/cron/route.ts:14 | 1970-01-03 is a Saturday (6) and 1970-01-04 a Sunday (0), as `getDay()` numbers them |
| Cron.AnySkipDate | src/app/api/cron/route.ts:22-28 | true exactly when some valid custom skip date falls on today's local day |
| Cron.ShouldSkipToday | src/app/api/cron/route.ts:12-31 | the day is skipped exactly when it is a weekend day and weekends are skipped, or some custom skip date falls on it |
| Cron.ResetOncePerDay | src/app/api/cron/route.ts:34-52 | a second reset on the same local day changes nothing, and the reset touches only the two counters and the reset instant |
| Cron.ResetOnNewDay | src/app/api/cron/route.ts:36-45 | a row last reset on an earlier local day (the epoch when never reset) gets zero counters and the current instant |
| Cron.Migrate | src/app/api/cron/route.ts:150-165 | missing or empty schedules become ["09:00"] and ["09:30"], other schedules stay, and nothing else changes |
| Cron.Recipients | src/app/api/cron/route.ts:207-212 | the swept users are exactly the non-admin users whose handle does not match `pending_%` |
| Cron.PendingNotSwept | src/app/api/cron/route.ts:210 | a `pending_` placeholder handle is never swept, nor is any "pending" followed by one more character |
| Cron.SweepQuota | src/app/api/cron/route.ts:247-265 | a channel that sends anything ends at most at its daily maximum; an ineligible channel sends nothing; the counters equal the deliveries among the results |
| Cron.SweepResults | src/app/api/cron/route.ts:228-275 | one result per user, in order, with that user's refresh outcome; no WhatsApp message to a user without a phone; an ineligible channel skips everyone |
| Cron.RefreshNeverBlocks | src/app/api/cron/route.ts:237-273 | whatever the stats refreshes report, the counters and every channel result are the same |
| Cron.RunSweep | src/app/api/cron/route.ts:227-277 | the loop's counters and results are those of the sweep specification |
| Cron.DeliveredOrSkipped | src/app/api/cron/route.ts:289-293 | per channel, the delivered results and the skipped results together are at most all results |
| Cron.ReportSummary | src/app/api/cron/route.ts:287-300 | in the summary of a sweep, per channel the sent and the skipped users together are at most `totalUsers`, the refreshed ones at most `totalUsers`, and the sample is the first `min(5, n)` results |
| Cron.CronAuth | src/app/api/cron/route.ts:124-141 | the request passes exactly when the header is "Bearer <secret>" for a configured secret, or there is no secret outside production; production without a secret is a 500 |
| Cron.PersistWithinQuota | src/app/api/cron/route.ts:280-285 | the persisted counters never pass a daily maximum the run sent under, and a last-sent instant moves only for a channel that sent something |
| Cron.Take | src/app/api/cron/route.ts:299 | at most five results are returned, a prefix of the list |
| Cron.SettingsTable.LoadSettings | src/app/api/cron/route.ts:145-168 | the row is created from the defaults when missing, migrated and reset, and the stored row is the one the handler goes on with |
| Cron.SettingsTable.Get | src/app/api/cron/route.ts:122-300 | a failed secret check changes nothing; the counter reset is stored before the disabled, skipped-day and not-time returns; a run writes prior counts plus this run's successes and reports the sweep |
| RateLimit.StoreKeyInjective | src/lib/rateLimit.ts:55 | for identifiers without ':' (all the presets), different identifiers or keys never share a store entry |
| RateLimit.CeilSeconds | src/lib/rateLimit.ts:78 | `Math.ceil(x / 1000)` is the least whole number of seconds covering x milliseconds |
| RateLimit.NonNegative | src/lib/rateLimit.ts:77 | `Math.max(0, x)` is 0 or x, and at least both |
| RateLimit.DecideOpensWindow | src/lib/rateLimit.ts:61-71 | with no window, or one that ended strictly before now, the entry becomes count 1 ending one window from now; the call is allowed with `limit - 1` remaining and a reset of `windowSeconds` |
| RateLimit.DecideInWindow | src/lib/rateLimit.ts:74-85 | inside a window the count rises by exactly one; the call is allowed exactly while the count is within the limit; nothing remains exactly when the limit is reached; the reset is the rest of the window rounded up to seconds |
| RateLimit.WindowCount | src/lib/rateLimit.ts:61-78 | in one window the count is the number of calls; the allowed calls are the first `limit` of them, or the first one alone when the limit is below one |
| RateLimit.WindowBound | src/lib/rateLimit.ts:39-78 | with a limit of at least one, at most `limit` calls per key per window are allowed |
| RateLimit.Live | src/lib/rateLimit.ts:23-27 | the live windows are exactly the entries whose window has not ended before now, unchanged |
| RateLimit.CleanupTransparent | src/lib/rateLimit.ts:21-61 | dropping expired windows changes no later decision |
| RateLimit.RateLimiter.constructor | src/lib/rateLimit.ts:17 | the store of windows starts empty |
| RateLimit.RateLimiter.CheckRateLimit | src/lib/rateLimit.ts:53-86 | only the entry at `identifier:key` changes, and it changes as the window decision says |
| RateLimit.RateLimiter.Cleanup | src/lib/rateLimit.ts:21-28 | the loop deletes exactly the windows that ended strictly before now and keeps every other entry as it was |
| RateLimit.FirstHop | src/lib/rateLimit.ts:97 | the first comma part, trimmed, has no comma and no white space at either end |
| RateLimit.IdentifierPrecedence | src/lib/rateLimit.ts:92-113 | a non-empty x-forwarded-for decides alone, then x-real-ip, then x-vercel-forwarded-for, then "unknown" |
| RateLimit.ForwardedIsOneHop | src/lib/rateLimit.ts:94-98 | from x-forwarded-for the identifier is one trimmed address with no comma |
| RateLimit.EmptyFirstHop | src/lib/rateLimit.ts:95-97 | a forwarded chain that starts with a comma gives the empty identifier |
| Auth.CompleteProfile | src/lib/auth.ts:57-67 | a profile is complete exactly when the handle is non-empty and not `pending_…`, GitHub is neither empty nor "pending", and phone and LinkedIn are present and non-empty |
| Auth.Token | src/lib/auth.ts:26 | the token is the text after "Bearer " up to the next space |
| Auth.TokenOfBearer | src/lib/auth.ts:21-26 | "Bearer " followed by a space-free token yields that token |
| Auth.ToLower | src/lib/auth.ts:43-44 | lower-casing keeps the length and maps exactly the letters A–Z |
| Auth.FirstWithEmail | src/lib/auth.ts:46-48 | the lookup finds the first row with that e-mail, and none exactly when no row has it |
| Auth.GetCurrentUser | src/lib/auth.ts:20-55 | no bearer header gives no user; the manual admin identity exactly for a verified admin token with the manual flag; otherwise a user exactly when Supabase signs in a user with a non-empty e-mail that some row has, lower-cased, and then the first such row with its completeness flag |
| Auth.RequireAuthPasses | src/lib/auth.ts:76-97 | a request passes exactly when it has a user who is a manual admin, has a complete profile, or is on the profile route; no user gives 401 |
| Auth.RequireAdminPasses | src/lib/auth.ts:102-115 | only the manual admin and rows whose role is admin pass |
| Auth.ManualAdminPasses | src/lib/auth.ts:31-115 | a verified manual admin token passes both wrappers on every path, whatever Supabase and the table say |
| Profile.LinkIdempotent | src/app/api/users/profile/route.ts:46-56 | normalising a GitHub or LinkedIn value twice is normalising it once |
| Profile.LinkOfHandle | src/app/api/users/profile/route.ts:47-54 | a handle that is not a link gets the prefix and loses only its first "@" |
| Profile.LinkOfPlainHandle | src/app/api/users/profile/route.ts:47 | a handle without "@" that is not a link is appended to the prefix unchanged |
| Profile.GithubLinkIsReal | src/app/api/users/profile/route.ts:46-48 | a normalised GitHub link is never empty and never the "pending" placeholder |
| Profile.PhoneKeepsDigits | src/app/api/users/profile/route.ts:60-62 | removing white space keeps a number that has any other character |
| Profile.BuildUpdateData | src/app/api/users/profile/route.ts:40-62 | the payload assembled field by field is `Payload(req)`: name and handle only when non-empty; GitHub as a link when non-empty; LinkedIn and phone left alone when missing, cleared when empty or null, else a link or the number without white space |
| Profile.FullUpdateCompletes | src/app/api/users/profile/route.ts:43-74 | applying the payload of a request that fills every field with a real value completes the profile, whatever the row held |
| Profile.SyncRejection | src/app/api/users/profile/route.ts:77-98 | a failed sync is a 400 exactly when it is a LeetCode error or its message says "not found" or "does not exist" |
| Profile.UnknownHandleRejected | src/app/api/users/profile/route.ts:84-95 | an unknown LeetCode handle makes the update a 400 |
| Profile.UsersTable.Put | src/app/api/users/profile/route.ts:20-129 | a manual admin gets 403, a body that is not JSON a 500 with the parse error's message, and invalid input a 400, with nothing written; a missing row is a 404; otherwise the user's row becomes the old row with `Payload(req)` applied, and nothing else changes, even when the stats sync is then rejected with a 400; the response carries the new row with the completeness flag of `isProfileIncomplete` |
| SendRoasts.Switches | src/app/api/admin/send-roasts/route.ts:59-60 | both channels are on for a missing or unparseable body, and a switch is off only when sent as false |
| SendRoasts.Recipients | src/app/api/admin/send-roasts/route.ts:63-65 | the recipients are exactly the users whose role is not admin; `pending_` handles are included |
| Common.TrimBlank | src/app/api/admin/send-roasts/route.ts:92 | `trim()` leaves nothing exactly when the text is all white space |
| SendRoasts.HasPhoneIff | src/app/api/admin/send-roasts/route.ts:92 | a user is skipped exactly when the phone is missing or nothing but white space |
| SendRoasts.EmailCounts | src/app/api/admin/send-roasts/route.ts:78-88 | with e-mail on, sent plus failed is the number of users and sent is the number of successful sends; with it off both stay 0 |
| SendRoasts.WhatsAppCounts | src/app/api/admin/send-roasts/route.ts:91-105 | with WhatsApp on, sent plus failed plus skipped is the number of users, skipped are the users without a phone, and sent are those with a phone whose send succeeded; with it off all stay 0 |
| SendRoasts.ErrorBound | src/app/api/admin/send-roasts/route.ts:82-101 | there is at most one error per failed send |
| SendRoasts.ErrorCount | src/app/api/admin/send-roasts/route.ts:82-101 | when every failure carries a message there is exactly one error per failed send |
| SendRoasts.Post | src/app/api/admin/send-roasts/route.ts:57-119 | the loop's results are the tally over the recipients under the body's switches, `totalUsers` is their number, and the custom-message flags tell whether a custom text was sent |
| SendMessages.Selected | src/app/api/admin/send-messages/route.ts:53-58 | the selected users are exactly the rows whose id was asked for |
| SendMessages.EmailCounts | src/app/api/admin/send-messages/route.ts:75-87 | for "email" and "both", sent plus failed is the number of users and sent the successful sends; otherwise both stay 0 |
| SendMessages.WhatsAppCounts | src/app/api/admin/send-messages/route.ts:90-105 | for "whatsapp" and "both", sent plus failed is the number of users (a missing phone is a failure) and sent are the users with a phone whose send succeeded; otherwise both stay 0 |
| SendMessages.ErrorCount | src/app/api/admin/send-messages/route.ts:78-105 | every failure adds exactly one error |
| SendMessages.OtherTypeSendsNothing | src/app/api/admin/send-messages/route.ts:75-105 | any other message type leaves every counter at 0 and reports no error |
| SendMessages.Post | src/app/api/admin/send-messages/route.ts:38-117 | a body that is not JSON is a 500 with the parse error's message; missing or empty `userIds` is a 400; no matching user is a 400; otherwise the results are the tally over the selected users and `totalUsers` is their number |

## Left out

- **I/O.** The HTTP requests to LeetCode, JSON parsing of responses, e-mail and WhatsApp transports, the database drivers and `console` logging are not modelled. Their results are inputs: replies, outcome sequences, table contents. The users table is a value or a map, not a query engine.
- **Delays and timers.** The 100 ms pauses between users and the five-minute `setInterval` that runs the rate-limit cleanup are not modelled; the cleanup loop itself is.
- **Concurrency.** Overlapping cron runs, concurrent rate-limit checks and concurrent syncs of one user are not modelled; every operation runs alone.
- **Time zones.** `toLocaleTimeString` is replaced by the hour and minute it yields, and the local calendar day by a fixed offset from UTC. Daylight-saving changes are not modelled.
- **`Number()` on text.** Only digit strings (with surrounding white space) read as numbers; signs, decimals, exponents and hexadecimal read as NaN, where JavaScript would read a number.
- **Calendar keys.** Submission calendar keys are modelled as whole seconds; a key that is not a number (NaN after `Number`) is not modelled.
- **Custom skip dates.** Each date is the instant its text parses to, or "invalid"; date-string parsing is not modelled.
- **Lower-casing.** `toLowerCase` is modelled for ASCII letters only.
- **Error objects.** `LeetCodeError` is not defined in the modelled files; it appears as an opaque error with a message and a code. Errors that are not `Error` instances appear as failures without a message.
- **Validation.** `validateRequest` and the profile schema are not part of this model; their verdict is an input.
- **Defaults.** `src/db/schema.ts` is not part of this model, so the defaults of a freshly inserted settings row are a parameter.
- **Catch-all 500 paths.** Database failures inside the handlers are not modelled. The model keeps only the 500 responses that inputs can cause (a body that is not JSON, a missing cron secret in production).
- **A JSON `null` body.** A body of both admin broadcast routes that parses to `null` (or to another non-object value) makes the destructuring throw, and the route answers 500 with the engine's message. The model's body inputs are an object, a missing body or (for send-messages) a parse error, so this 500 is not modelled.
- **Unreachable branch.** The `else if (isProduction)` branch of the cron secret check (src/app/api/cron/route.ts:139-141) cannot be taken, since the earlier check already returned for that case; the model has no such branch.
- **Message text.** The e-mail and WhatsApp templates and the random roasts are not modelled; a send is its outcome.
- Cron.PendingLike: `notLike(leetcodeUsername, 'pending_%')` treats `_` as a one-character wildcard, so the model excludes any handle "pending" followed by at least one character, as the database does.
- LeetCode.ResyncStable: follows the code, where the first re-sync of a day moves `previousTotal` from the fresh total to the earlier snapshot's total; only from the second sync on is a re-sync a no-op.
- RateLimit.StoreKeyInjective: identifiers or keys that contain ':' can share a store entry; the lemma covers identifiers without ':' only.
- RateLimit.WindowCount: a limit below one still allows the first call of every window, as the code does.
- RateLimit.EmptyFirstHop: a forwarded-for header starting with "," yields the empty identifier rather than falling back to the other headers, as the code does.
- SendRoasts.Post: the transports' own checks (for example the missing-phone check inside `sendWhatsApp`) are covered by the outcome inputs; a non-boolean `sendEmail` or `sendWhatsApp` value is not modelled.
- SendMessages.Post: a failed send and a thrown send produce the same counters and error text, so both are one failure outcome; a `userIds` value that is not an array is not modelled.
