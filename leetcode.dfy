/** The daily-stats pipeline of the tracker: the streak computed from the
    submission calendar, the normalisation of the profile reply into tier
    counts, and the weighted daily score that is upserted into the store of
    daily snapshots keyed by (user, date). */
module LeetCode {
  import opened Common

  const DaySeconds: nat := 86400
  const DayMillis: nat := 86400000

  /** Points per newly solved problem of each tier. */
  const EasyWeight: nat := 1
  const MediumWeight: nat := 3
  const HardWeight: nat := 6

  // ---------------------------------------------------------------------
  // Streak
  // ---------------------------------------------------------------------

  /** The submission calendar as `calculateStreak` receives it: missing or
      empty text, text that `JSON.parse` rejects, or the keys of the parsed
      object read as numbers (unix seconds, one per active day). */
  datatype Calendar = Missing | Unparseable | Parsed(keys: seq<nat>)

  /** The number of the 86400-second day holding unix time `t`. */
  function Day(t: nat): nat {
    t / DaySeconds
  }

  /** `t - (t % 86400)`: the start of the day holding `t`, in seconds. */
  function DayStart(t: nat): (d: nat)
    ensures d == Day(t) * DaySeconds && d <= t < d + DaySeconds
  {
    t - t % DaySeconds
  }

  lemma DayMonotone(a: nat, b: nat)
    requires a <= b
    ensures Day(a) <= Day(b)
  {
  }

  predicate Descending(s: seq<nat>) {
    forall i, j :: 0 <= i < j < |s| ==> s[i] >= s[j]
  }

  function InsertDescending(x: nat, s: seq<nat>): (r: seq<nat>)
    ensures multiset(r) == multiset(s) + multiset{x}
    ensures |r| == |s| + 1
    ensures r[0] == x || (s != [] && r[0] == s[0])
  {
    if s == [] || x >= s[0] then [x] + s
    else
      assert s == [s[0]] + s[1..];
      [s[0]] + InsertDescending(x, s[1..])
  }

  /** `keys.sort((a, b) => b - a)`: a permutation of the keys (that it is
      in descending order is SortDescendingOrders). */
  function SortDescending(s: seq<nat>): (r: seq<nat>)
    ensures multiset(r) == multiset(s)
    ensures |r| == |s|
  {
    if s == [] then []
    else
      assert s == [s[0]] + s[1..];
      InsertDescending(s[0], SortDescending(s[1..]))
  }

  lemma {:induction false} InsertDescendingOrders(x: nat, s: seq<nat>)
    requires Descending(s)
    ensures Descending(InsertDescending(x, s))
  {
    if s != [] && x < s[0] {
      assert s == [s[0]] + s[1..];
      InsertDescendingOrders(x, s[1..]);
      var r := InsertDescending(x, s[1..]);
      assert r[0] <= s[0];
      assert forall k :: 0 <= k < |r| ==> r[k] <= r[0];
    }
  }

  lemma {:induction false} SortDescendingOrders(s: seq<nat>)
    ensures Descending(SortDescending(s))
  {
    if s != [] {
      SortDescendingOrders(s[1..]);
      InsertDescendingOrders(s[0], SortDescending(s[1..]));
    }
  }

  /** The start of the current UTC day, in unix seconds. */
  function TodayStart(nowSec: nat): (r: nat)
    ensures r == Day(nowSec) * DaySeconds
  {
    nowSec - nowSec % DaySeconds
  }

  /** What the loop of `calculateStreak` computes over descending
      timestamps from day `cursor` on: a timestamp on the cursor day is
      passed over, one on the day before extends the streak and moves the
      cursor there, anything else ends the walk. */
  function Walk(ts: seq<nat>, cursor: int): nat
  {
    if ts == [] then 0
    else if Day(ts[0]) == cursor then Walk(ts[1..], cursor)
    else if Day(ts[0]) == cursor - 1 then 1 + Walk(ts[1..], cursor - 1)
    else 0
  }

  /** The streak `calculateStreak` reports for a calendar at time `nowSec`:
      0 without keys or when the newest key is older than the start of
      yesterday, otherwise the walk from today. */
  function Streak(calendar: Calendar, nowSec: nat): nat
  {
    match calendar
    case Missing => 0
    case Unparseable => 0
    case Parsed(keys) =>
      var ts := SortDescending(keys);
      if ts == [] then 0
      else if ts[0] < TodayStart(nowSec) - DaySeconds then 0
      else Walk(ts, Day(nowSec))
  }

  method CalculateStreak(calendar: Calendar, nowSec: nat) returns (streak: nat)
    ensures streak == Streak(calendar, nowSec)
  {
    if !calendar.Parsed? {
      return 0;
    }
    var timestamps := SortDescending(calendar.keys);
    if |timestamps| == 0 {
      return 0;
    }
    var todayStart := TodayStart(nowSec);
    var mostRecent := timestamps[0];
    if mostRecent < todayStart - DaySeconds {
      return 0;
    }
    streak := CountStreakDays(timestamps, todayStart);
  }

  /** The loop of `calculateStreak`: walks the descending timestamps from
      the day starting at `todayStart`, in seconds as the source compares. */
  method CountStreakDays(timestamps: seq<nat>, todayStart: nat) returns (streak: nat)
    requires todayStart % DaySeconds == 0
    ensures streak == Walk(timestamps, Day(todayStart))
  {
    streak := 0;
    var currentDay: int := todayStart;
    ghost var cursor: int := Day(todayStart);
    var i := 0;
    while i < |timestamps|
      invariant 0 <= i <= |timestamps|
      invariant currentDay == cursor * DaySeconds
      invariant Walk(timestamps, Day(todayStart)) == streak + Walk(timestamps[i..], cursor)
    {
      var dayStart := DayStart(timestamps[i]);
      WalkVisit(timestamps, i, cursor, currentDay);
      if dayStart == currentDay || dayStart == currentDay - DaySeconds {
        if dayStart < currentDay {
          streak := streak + 1;
          currentDay := dayStart;
          cursor := cursor - 1;
        }
      } else {
        break;
      }
      i := i + 1;
    }
  }

  /** Comparing day starts in seconds, as the source does, is comparing day numbers. */
  lemma DayStartMatch(t: nat, cursor: int)
    ensures DayStart(t) == cursor * DaySeconds <==> Day(t) == cursor
    ensures DayStart(t) == cursor * DaySeconds - DaySeconds <==> Day(t) == cursor - 1
  {
  }

  /** One visit of the loop of `calculateStreak`, in the seconds it compares. */
  lemma WalkVisit(ts: seq<nat>, i: nat, cursor: int, currentDay: int)
    requires i < |ts| && currentDay == cursor * DaySeconds
    ensures DayStart(ts[i]) == currentDay ==> Walk(ts[i..], cursor) == Walk(ts[i + 1..], cursor)
    ensures DayStart(ts[i]) == currentDay - DaySeconds ==>
              Walk(ts[i..], cursor) == 1 + Walk(ts[i + 1..], cursor - 1) &&
              DayStart(ts[i]) == (cursor - 1) * DaySeconds
    ensures DayStart(ts[i]) != currentDay && DayStart(ts[i]) != currentDay - DaySeconds ==>
              Walk(ts[i..], cursor) == 0
  {
    DayStartMatch(ts[i], cursor);
    WalkStep(ts[i..], cursor);
    assert ts[i..][1..] == ts[i + 1..];
  }

  lemma WalkStep(ts: seq<nat>, cursor: int)
    requires ts != []
    ensures Day(ts[0]) == cursor ==> Walk(ts, cursor) == Walk(ts[1..], cursor)
    ensures Day(ts[0]) == cursor - 1 ==> Walk(ts, cursor) == 1 + Walk(ts[1..], cursor - 1)
    ensures Day(ts[0]) != cursor && Day(ts[0]) != cursor - 1 ==> Walk(ts, cursor) == 0
  {
  }

  /** The streak never exceeds the number of calendar keys. */
  lemma {:induction false} WalkBound(ts: seq<nat>, cursor: int)
    ensures Walk(ts, cursor) <= |ts|
  {
    if ts != [] {
      WalkBound(ts[1..], cursor);
      WalkBound(ts[1..], cursor - 1);
    }
  }

  lemma StreakBound(keys: seq<nat>, nowSec: nat)
    ensures Streak(Parsed(keys), nowSec) <= |keys|
  {
    WalkBound(SortDescending(keys), Day(nowSec));
  }

  /** When every key lies before the start of yesterday, the streak is 0. */
  lemma StreakOfStaleCalendar(keys: seq<nat>, nowSec: nat)
    requires forall k :: k in keys ==> k < TodayStart(nowSec) - DaySeconds
    ensures Streak(Parsed(keys), nowSec) == 0
  {
    var ts := SortDescending(keys);
    if ts != [] {
      assert ts[0] in multiset(ts);
      assert ts[0] in keys;
    }
  }

  /** Activity on the cursor day alone never counts. */
  lemma {:induction false} WalkOverCursorDay(ts: seq<nat>, cursor: int)
    requires forall k :: 0 <= k < |ts| ==> Day(ts[k]) == cursor
    ensures Walk(ts, cursor) == 0
  {
    if ts != [] {
      WalkOverCursorDay(ts[1..], cursor);
    }
  }

  /** A calendar whose keys all fall on the current day yields 0. */
  lemma StreakOfTodayOnly(keys: seq<nat>, nowSec: nat)
    requires forall k :: k in keys ==> Day(k) == Day(nowSec)
    ensures Streak(Parsed(keys), nowSec) == 0
  {
    var ts := SortDescending(keys);
    forall k | 0 <= k < |ts| ensures Day(ts[k]) == Day(nowSec) {
      assert ts[k] in multiset(ts);
    }
    WalkOverCursorDay(ts, Day(nowSec));
  }

  /** Activity on the cursor day and the day before, and on no other day,
      gives exactly 1. */
  lemma {:induction false} WalkTodayAndYesterday(ts: seq<nat>, cursor: int)
    requires Descending(ts)
    requires forall k :: 0 <= k < |ts| ==> Day(ts[k]) == cursor || Day(ts[k]) == cursor - 1
    requires exists k :: 0 <= k < |ts| && Day(ts[k]) == cursor - 1
    ensures Walk(ts, cursor) == 1
  {
    if Day(ts[0]) == cursor {
      var k :| 0 <= k < |ts| && Day(ts[k]) == cursor - 1;
      assert k > 0 && Day(ts[1..][k - 1]) == cursor - 1;
      WalkTodayAndYesterday(ts[1..], cursor);
    } else {
      forall k | 0 <= k < |ts[1..]| ensures Day(ts[1..][k]) == cursor - 1 {
        assert ts[1..][k] == ts[k + 1] <= ts[0];
        DayMonotone(ts[k + 1], ts[0]);
      }
      WalkOverCursorDay(ts[1..], cursor - 1);
    }
  }

  /** Activity only today and yesterday gives a streak of exactly 1. */
  lemma StreakOfTodayAndYesterday(keys: seq<nat>, nowSec: nat)
    requires forall k :: k in keys ==> Day(k) == Day(nowSec) || Day(k) == Day(nowSec) - 1
    requires exists k :: k in keys && Day(k) == Day(nowSec) - 1
    ensures Streak(Parsed(keys), nowSec) == 1
  {
    var ts := SortDescending(keys);
    SortDescendingOrders(keys);
    var today := Day(nowSec);
    forall k | 0 <= k < |ts| ensures Day(ts[k]) == today || Day(ts[k]) == today - 1 {
      assert ts[k] in multiset(ts);
    }
    var y :| y in keys && Day(y) == today - 1;
    assert y in multiset(ts);
    var k :| 0 <= k < |ts| && ts[k] == y;
    DayMonotone(y, ts[0]);
    assert !(ts[0] < TodayStart(nowSec) - DaySeconds);
    WalkTodayAndYesterday(ts, today);
  }

  /** Some timestamp of `ts` falls on day `d`. */
  predicate ActiveOn(ts: seq<nat>, d: int) {
    exists k :: 0 <= k < |ts| && Day(ts[k]) == d
  }

  /** Some calendar key falls on day `d`. */
  predicate KeyOn(keys: seq<nat>, d: int) {
    exists k :: k in keys && Day(k) == d
  }

  /** Every day the walk counts was active: a walk of n means some key falls
      on each of the n days before the cursor. */
  lemma {:induction false} WalkSound(ts: seq<nat>, cursor: int, d: int)
    requires cursor - Walk(ts, cursor) <= d < cursor
    ensures ActiveOn(ts, d)
  {
    if Day(ts[0]) == cursor {
      WalkSound(ts[1..], cursor, d);
      var k :| 0 <= k < |ts[1..]| && Day(ts[1..][k]) == d;
      assert ts[1..][k] == ts[k + 1];
    } else if d == cursor - 1 {
      assert Day(ts[0]) == d;
    } else {
      WalkSound(ts[1..], cursor - 1, d);
      var k :| 0 <= k < |ts[1..]| && Day(ts[1..][k]) == d;
      assert ts[1..][k] == ts[k + 1];
    }
  }

  /** A streak of n means some key falls on each of the n days before today. */
  lemma StreakSound(keys: seq<nat>, nowSec: nat, d: int)
    requires Day(nowSec) - Streak(Parsed(keys), nowSec) <= d < Day(nowSec)
    ensures KeyOn(keys, d)
  {
    var ts := SortDescending(keys);
    WalkSound(ts, Day(nowSec), d);
    var k :| 0 <= k < |ts| && Day(ts[k]) == d;
    assert ts[k] in multiset(ts);
  }

  /** Conversely, with no timestamp after the cursor day, activity on each of
      the n days before the cursor makes the walk count at least n. */
  lemma {:induction false} WalkComplete(ts: seq<nat>, cursor: int, n: nat)
    requires Descending(ts)
    requires forall k :: 0 <= k < |ts| ==> Day(ts[k]) <= cursor
    requires forall d :: cursor - n <= d < cursor ==> ActiveOn(ts, d)
    ensures Walk(ts, cursor) >= n
  {
    if n == 0 {
      return;
    }
    assert ActiveOn(ts, cursor - 1);
    var k1 :| 0 <= k1 < |ts| && Day(ts[k1]) == cursor - 1;
    var d0 := Day(ts[0]);
    DayMonotone(ts[k1], ts[0]);
    var rest := ts[1..];
    forall k | 0 <= k < |rest| ensures Day(rest[k]) <= d0 {
      assert rest[k] == ts[k + 1] <= ts[0];
      DayMonotone(ts[k + 1], ts[0]);
    }
    var next := if d0 == cursor then cursor else cursor - 1;
    var m: nat := if d0 == cursor then n else n - 1;
    forall d | next - m <= d < next ensures ActiveOn(rest, d) {
      assert ActiveOn(ts, d);
      var k :| 0 <= k < |ts| && Day(ts[k]) == d;
      assert rest[k - 1] == ts[k];
    }
    WalkComplete(rest, next, m);
  }

  /** With no key after today, activity on each of the n days before today
      gives a streak of at least n: the walk stops only at a gap. */
  lemma StreakComplete(keys: seq<nat>, nowSec: nat, n: nat)
    requires forall k :: k in keys ==> Day(k) <= Day(nowSec)
    requires forall d :: Day(nowSec) - n <= d < Day(nowSec) ==> KeyOn(keys, d)
    ensures Streak(Parsed(keys), nowSec) >= n
  {
    var ts := SortDescending(keys);
    SortDescendingOrders(keys);
    var today := Day(nowSec);
    if n == 0 {
      return;
    }
    forall k | 0 <= k < |ts| ensures Day(ts[k]) <= today {
      assert ts[k] in multiset(ts);
    }
    forall d | today - n <= d < today ensures ActiveOn(ts, d) {
      assert KeyOn(keys, d);
      var y :| y in keys && Day(y) == d;
      assert y in multiset(ts);
      var k :| 0 <= k < |ts| && ts[k] == y;
    }
    assert ActiveOn(ts, today - 1);
    var k :| 0 <= k < |ts| && Day(ts[k]) == today - 1;
    DayMonotone(ts[k], ts[0]);
    assert !(ts[0] < TodayStart(nowSec) - DaySeconds);
    WalkComplete(ts, today, n);
  }

  // ---------------------------------------------------------------------
  // The profile reply and its normalisation
  // ---------------------------------------------------------------------

  datatype DifficultyCount = DifficultyCount(difficulty: string, count: int)
  datatype Profile = Profile(ranking: Option<int>, userAvatar: Option<string>, countryName: Option<string>)
  datatype Submission = Submission(id: string, title: string, titleSlug: string, timestamp: string)
  datatype SubmitStats = SubmitStats(acSubmissionNum: Option<seq<DifficultyCount>>)
  datatype MatchedUser = MatchedUser(
    profile: Option<Profile>,
    submitStatsGlobal: Option<SubmitStats>,
    submissionCalendar: Calendar,
    recentAcSubmissionList: Option<seq<Submission>>)
  datatype UserData = UserData(matchedUser: Option<MatchedUser>)

  /** What the GraphQL request for one handle comes back with: a response
      whose status is not ok, a request that throws, or the `data` member of
      the JSON body (absent when the query failed). */
  datatype ApiReply = HttpError(status: nat) | Thrown(message: string) | Body(data: Option<UserData>)

  datatype RecentSubmission = RecentSubmission(title: string, titleSlug: string, timestamp: string)

  /** The normalised profile that `fetchLeetCodeStats` resolves to. */
  datatype Stats = Stats(
    easy: int, medium: int, hard: int, total: int,
    ranking: int, avatar: string, country: string,
    recentSubmissions: seq<RecentSubmission>,
    streak: nat,
    lastSubmission: Option<string>)

  /** The errors `fetchLeetCodeStats` throws. */
  datatype FetchError =
    | ApiStatus(status: nat)
    | Transport(message: string)
    | UserNotFound(username: string)
    | StatsUnavailable(username: string)

  function ErrorMessage(e: FetchError): string {
    match e
    case ApiStatus(status) => "LeetCode API error: " + NatToDecimal(status)
    case Transport(message) => message
    case UserNotFound(u) =>
      "User \"" + u + "\" " + "not found" + " on LeetCode. Please check the username is correct."
    case StatsUnavailable(u) =>
      "Could not fetch submission stats for \"" + u + "\". The profile may be private."
  }

  /** `acNum.find(s => s.difficulty === d)?.count || 0`. */
  function TierCount(acNum: seq<DifficultyCount>, d: string): (c: int)
    ensures (forall i :: 0 <= i < |acNum| ==> acNum[i].difficulty != d) ==> c == 0
    ensures forall i :: 0 <= i < |acNum| && acNum[i].difficulty == d
                        && (forall j :: 0 <= j < i ==> acNum[j].difficulty != d)
                        ==> c == acNum[i].count
  {
    if acNum == [] then 0
    else if acNum[0].difficulty == d then acNum[0].count
    else TierCount(acNum[1..], d)
  }

  /** `recentSubmissions.map(s => ({title, titleSlug, timestamp}))`. */
  function Recent(list: seq<Submission>): (r: seq<RecentSubmission>)
    ensures |r| == |list|
    ensures forall i :: 0 <= i < |list| ==>
              r[i] == RecentSubmission(list[i].title, list[i].titleSlug, list[i].timestamp)
  {
    seq(|list|, i requires 0 <= i < |list| => RecentSubmission(list[i].title, list[i].titleSlug, list[i].timestamp))
  }

  /** The calendar of a reply that names a user. */
  function CalendarOf(reply: ApiReply): Calendar {
    if reply.Body? && reply.data.Some? && reply.data.value.matchedUser.Some? then
      reply.data.value.matchedUser.value.submissionCalendar
    else Missing
  }

  /** The result of `fetchLeetCodeStats` for a reply, given the streak
      computed from that reply's calendar. */
  function Normalize(username: string, reply: ApiReply, streak: nat): (r: Result<Stats, FetchError>)
  {
    match reply
    case HttpError(status) => Failure(ApiStatus(status))
    case Thrown(message) => Failure(Transport(message))
    case Body(data) =>
      if data.None? || data.value.matchedUser.None? then Failure(UserNotFound(username))
      else
        var user := data.value.matchedUser.value;
        if user.submitStatsGlobal.None? || user.submitStatsGlobal.value.acSubmissionNum.None?
           || user.submitStatsGlobal.value.acSubmissionNum.value == []
        then Failure(StatsUnavailable(username))
        else
          var acNum := user.submitStatsGlobal.value.acSubmissionNum.value;
          var profile := user.profile;
          var recent := if user.recentAcSubmissionList.Some? then user.recentAcSubmissionList.value else [];
          Success(Stats(
            TierCount(acNum, "Easy"), TierCount(acNum, "Medium"), TierCount(acNum, "Hard"),
            TierCount(acNum, "All"),
            if profile.Some? && profile.value.ranking.Some? then profile.value.ranking.value else 0,
            if profile.Some? && profile.value.userAvatar.Some? then profile.value.userAvatar.value else "",
            if profile.Some? && profile.value.countryName.Some? then profile.value.countryName.value else "",
            Recent(recent),
            streak,
            if |recent| > 0 then Some(recent[0].timestamp) else None))
  }

  method FetchLeetCodeStats(username: string, reply: ApiReply, nowSec: nat) returns (r: Result<Stats, FetchError>)
    ensures r == Normalize(username, reply, Streak(CalendarOf(reply), nowSec))
  {
    var streak := CalculateStreak(CalendarOf(reply), nowSec);
    r := Normalize(username, reply, streak);
  }

  /** A reply without a matched user is reported as an unknown handle, one
      whose accepted-submission counts are missing or empty as unavailable
      stats, and every other body succeeds. */
  lemma NormalizeFailures(username: string, reply: ApiReply, streak: nat)
    requires reply.Body?
    ensures (reply.data.None? || reply.data.value.matchedUser.None?)
            <==> Normalize(username, reply, streak) == Failure(UserNotFound(username))
    ensures (reply.data.Some? && reply.data.value.matchedUser.Some? &&
             var stats := reply.data.value.matchedUser.value.submitStatsGlobal;
             stats.None? || stats.value.acSubmissionNum.None? || stats.value.acSubmissionNum.value == [])
            <==> Normalize(username, reply, streak) == Failure(StatsUnavailable(username))
  {
  }

  /** The tier counts and the total are read from the entries of the same
      difficulty, and `total` is not recomputed from the tiers. */
  lemma NormalizeCounts(username: string, user: MatchedUser, acNum: seq<DifficultyCount>, streak: nat)
    requires user.submitStatsGlobal == Some(SubmitStats(Some(acNum))) && acNum != []
    ensures var r := Normalize(username, Body(Some(UserData(Some(user)))), streak);
            && r.Success?
            && r.value.easy == TierCount(acNum, "Easy")
            && r.value.medium == TierCount(acNum, "Medium")
            && r.value.hard == TierCount(acNum, "Hard")
            && r.value.total == TierCount(acNum, "All")
  {
  }

  /** `lastSubmission` is null exactly when the recent list is empty and is
      otherwise its first timestamp; the recent list keeps order and length. */
  lemma NormalizeRecent(username: string, user: MatchedUser, list: seq<Submission>, streak: nat)
    requires user.submitStatsGlobal.Some? && user.submitStatsGlobal.value.acSubmissionNum.Some?
    requires user.submitStatsGlobal.value.acSubmissionNum.value != []
    requires user.recentAcSubmissionList == Some(list)
    ensures var r := Normalize(username, Body(Some(UserData(Some(user)))), streak);
            && r.Success?
            && (r.value.lastSubmission.None? <==> list == [])
            && (list != [] ==> r.value.lastSubmission == Some(list[0].timestamp))
            && |r.value.recentSubmissions| == |list|
            && forall i :: 0 <= i < |list| ==> r.value.recentSubmissions[i].title == list[i].title
  {
  }

  // ---------------------------------------------------------------------
  // Daily snapshots and the weighted score
  // ---------------------------------------------------------------------

  type UserId = string

  /** A row of the DailyStat collection. */
  datatype DailyStat = DailyStat(
    easy: int, medium: int, hard: int, total: int,
    ranking: int, avatar: string, country: string,
    streak: nat,
    lastSubmission: Option<string>,
    recentProblems: seq<string>,
    previousTotal: int,
    todayPoints: int)

  /** Rows are unique per (user, date); a date is the number of the UTC day,
      which orders like the `YYYY-MM-DD` text the collection stores. */
  type StatKey = (UserId, nat)

  /** The UTC day of `new Date().toISOString().split('T')[0]`. */
  function Today(nowMs: nat): nat {
    nowMs / DayMillis
  }

  /** `Math.max(0, now - before)`. */
  function Gain(now: int, before: int): nat {
    if now > before then now - before else 0
  }

  /** `todayPoints` against the latest earlier snapshot, if there is one. */
  function Points(stats: Stats, last: Option<DailyStat>): (p: int)
    ensures p >= 0
  {
    var raw := if last.None? then 0
               else Gain(stats.easy, last.value.easy) * EasyWeight
                    + Gain(stats.medium, last.value.medium) * MediumWeight
                    + Gain(stats.hard, last.value.hard) * HardWeight;
    if raw > 0 then raw else 0
  }

  /** Each tier is floored at zero on its own: a drop in one tier never
      cancels a rise in another, and with no rise at all there are no points. */
  lemma PointsPerTier(stats: Stats, last: DailyStat)
    ensures Points(stats, Some(last)) >= (stats.easy - last.easy) * EasyWeight
    ensures Points(stats, Some(last)) >= (stats.medium - last.medium) * MediumWeight
    ensures Points(stats, Some(last)) >= (stats.hard - last.hard) * HardWeight
    ensures stats.easy <= last.easy && stats.medium <= last.medium && stats.hard <= last.hard
            ==> Points(stats, Some(last)) == 0
  {
  }

  /** Two more Easy and one more Medium score 2 * 1 + 1 * 3 = 5. */
  lemma PointsExample(stats: Stats, last: DailyStat)
    requires stats.easy == last.easy + 2 && stats.medium == last.medium + 1 && stats.hard == last.hard
    ensures Points(stats, Some(last)) == 5
  {
  }

  /** `recentSubmissions.map(s => s.title)`. */
  function Titles(list: seq<RecentSubmission>): (r: seq<string>)
    ensures |r| == |list| && forall i :: 0 <= i < |list| ==> r[i] == list[i].title
  {
    seq(|list|, i requires 0 <= i < |list| => list[i].title)
  }

  /** The dates before `today` on which `userId` has a snapshot. */
  ghost function EarlierDates(rows: map<StatKey, DailyStat>, userId: UserId, today: nat): set<nat> {
    set k | k in rows && k.0 == userId && k.1 < today :: k.1
  }

  ghost function MaxDate(ds: set<nat>): (m: nat)
    requires ds != {}
    ensures m in ds && forall d :: d in ds ==> d <= m
  {
    var x :| x in ds;
    var rest := ds - {x};
    if rest == {} then
      assert ds == {x};
      x
    else
      var m := MaxDate(rest);
      assert forall d :: d in ds ==> d == x || d in rest;
      if x > m then x else m
  }

  /** The latest snapshot of `userId` dated strictly before `today`. */
  ghost function LatestBefore(rows: map<StatKey, DailyStat>, userId: UserId, today: nat): (r: Option<DailyStat>)
    ensures r.None? <==> EarlierDates(rows, userId, today) == {}
  {
    var ds := EarlierDates(rows, userId, today);
    if ds == {} then None
    else
      var d := MaxDate(ds);
      assert exists k :: k in rows && k.0 == userId && k.1 < today && k.1 == d;
      Some(rows[(userId, d)])
  }

  /** The row `updateDailyStatsForUser` writes for `stats` on `today`:
      the points are taken against the latest earlier snapshot; the
      recorded `previousTotal` is the fresh total on an insert, and the
      earlier snapshot's total (or the fresh one, without an earlier
      snapshot) when a row for today already exists. */
  ghost function Snapshot(rows: map<StatKey, DailyStat>, userId: UserId, today: nat, stats: Stats): DailyStat
  {
    var last := LatestBefore(rows, userId, today);
    var previousTotal := if last.Some? then last.value.total else stats.total;
    DailyStat(stats.easy, stats.medium, stats.hard, stats.total, stats.ranking,
              stats.avatar, stats.country, stats.streak, stats.lastSubmission,
              Titles(stats.recentSubmissions),
              if (userId, today) in rows then previousTotal else stats.total,
              Points(stats, last))
  }

  /** The store after a successful sync of `userId` on `today`. */
  ghost function Synced(rows: map<StatKey, DailyStat>, userId: UserId, today: nat, stats: Stats): map<StatKey, DailyStat> {
    rows[(userId, today) := Snapshot(rows, userId, today, stats)]
  }

  /** Writing today's row leaves the earlier snapshots, and so the baseline
      the points are measured against, as they were. */
  lemma SyncKeepsBaseline(rows: map<StatKey, DailyStat>, userId: UserId, today: nat, stats: Stats)
    ensures LatestBefore(Synced(rows, userId, today, stats), userId, today) == LatestBefore(rows, userId, today)
  {
    var rows' := Synced(rows, userId, today, stats);
    assert EarlierDates(rows', userId, today) == EarlierDates(rows, userId, today) by {
      forall d ensures d in EarlierDates(rows', userId, today) <==> d in EarlierDates(rows, userId, today) {
        if d in EarlierDates(rows', userId, today) {
          var k :| k in rows' && k.0 == userId && k.1 < today && k.1 == d;
          assert k in rows;
        }
        if d in EarlierDates(rows, userId, today) {
          var k :| k in rows && k.0 == userId && k.1 < today && k.1 == d;
          assert k in rows';
        }
      }
    }
  }

  /** A re-sync with unchanged upstream data records the same points. */
  lemma ResyncKeepsPoints(rows: map<StatKey, DailyStat>, userId: UserId, today: nat, stats: Stats)
    ensures var once := Synced(rows, userId, today, stats);
            Synced(once, userId, today, stats)[(userId, today)].todayPoints == once[(userId, today)].todayPoints
  {
    SyncKeepsBaseline(rows, userId, today, stats);
  }

  /** From the second sync of a day on, repeating it changes nothing; the
      first re-sync may move `previousTotal` from the fresh total to the
      earlier snapshot's total. */
  lemma ResyncStable(rows: map<StatKey, DailyStat>, userId: UserId, today: nat, stats: Stats)
    ensures var twice := Synced(Synced(rows, userId, today, stats), userId, today, stats);
            Synced(twice, userId, today, stats) == twice
  {
    var once := Synced(rows, userId, today, stats);
    var twice := Synced(once, userId, today, stats);
    SyncKeepsBaseline(rows, userId, today, stats);
    SyncKeepsBaseline(once, userId, today, stats);
    assert Synced(twice, userId, today, stats)[(userId, today)] == twice[(userId, today)];
  }

  /** The anchor after a re-sync is the latest earlier snapshot's total. */
  lemma ResyncPreviousTotal(rows: map<StatKey, DailyStat>, userId: UserId, today: nat, stats: Stats)
    requires LatestBefore(rows, userId, today).Some?
    ensures Synced(rows, userId, today, stats)[(userId, today)].previousTotal ==
            if (userId, today) in rows then LatestBefore(rows, userId, today).value.total else stats.total
    ensures var once := Synced(rows, userId, today, stats);
            Synced(once, userId, today, stats)[(userId, today)].previousTotal
            == LatestBefore(rows, userId, today).value.total
  {
    SyncKeepsBaseline(rows, userId, today, stats);
  }

  /** The first snapshot a user ever gets scores nothing and is its own baseline. */
  lemma FirstSnapshot(rows: map<StatKey, DailyStat>, userId: UserId, today: nat, stats: Stats)
    requires forall k :: k in rows ==> k.0 != userId
    ensures Synced(rows, userId, today, stats)[(userId, today)].todayPoints == 0
    ensures Synced(rows, userId, today, stats)[(userId, today)].previousTotal == stats.total
  {
    assert EarlierDates(rows, userId, today) == {};
  }

  /** The DailyStat collection, keyed uniquely by (user, date). */
  class DailyStatStore {
    var rows: map<StatKey, DailyStat>

    constructor ()
      ensures rows == map[]
    {
      rows := map[];
    }

    /** The latest snapshot of `userId` dated before `today`, found as the
        query sorted by date, descending, and limited to one row finds it. */
    method LatestSnapshot(userId: UserId, today: nat) returns (last: Option<DailyStat>)
      ensures last == LatestBefore(rows, userId, today)
    {
      var earlier := set k | k in rows && k.0 == userId && k.1 < today :: k.1;
      assert earlier == EarlierDates(rows, userId, today);
      last := None;
      if earlier != {} {
        ghost var latest := MaxDate(earlier);
        var d :| d in earlier && forall e :: e in earlier ==> e <= d;
        assert d == latest;
        assert exists k :: k in rows && k.0 == userId && k.1 < today && k.1 == d;
        last := Some(rows[(userId, d)]);
      }
    }

    /** Fetch the user's profile, score the day against the latest earlier
        snapshot and upsert the row for today. A failed fetch throws before
        anything is written. */
    method UpdateDailyStatsForUser(userId: UserId, leetcodeUsername: string, reply: ApiReply, nowMs: nat)
      returns (r: Result<DailyStat, FetchError>)
      modifies this
      ensures var fetched := Normalize(leetcodeUsername, reply, Streak(CalendarOf(reply), nowMs / 1000));
              && (fetched.Failure? ==> r == Failure(fetched.error) && rows == old(rows))
              && (fetched.Success? ==>
                    && r == Success(Snapshot(old(rows), userId, Today(nowMs), fetched.value))
                    && rows == Synced(old(rows), userId, Today(nowMs), fetched.value))
    {
      var fetched := FetchLeetCodeStats(leetcodeUsername, reply, nowMs / 1000);
      if fetched.Failure? {
        return Failure(fetched.error);
      }
      var stats := fetched.value;
      var today := nowMs / DayMillis;

      var todayStat: Option<DailyStat> := if (userId, today) in rows then Some(rows[(userId, today)]) else None;

      var lastStat := LatestSnapshot(userId, today);

      var todayPoints := 0;
      var previousTotal := 0;
      if lastStat.Some? {
        var newEasy := if stats.easy - lastStat.value.easy > 0 then stats.easy - lastStat.value.easy else 0;
        var newMedium := if stats.medium - lastStat.value.medium > 0 then stats.medium - lastStat.value.medium else 0;
        var newHard := if stats.hard - lastStat.value.hard > 0 then stats.hard - lastStat.value.hard else 0;
        todayPoints := newEasy * 1 + newMedium * 3 + newHard * 6;
        previousTotal := lastStat.value.total;
      } else {
        previousTotal := stats.total;
        todayPoints := 0;
      }
      todayPoints := if todayPoints > 0 then todayPoints else 0;
      assert todayPoints == Points(stats, lastStat);

      var update := DailyStat(
        stats.easy, stats.medium, stats.hard, stats.total, stats.ranking,
        stats.avatar, stats.country, stats.streak, stats.lastSubmission,
        Titles(stats.recentSubmissions),
        if todayStat.Some? then previousTotal else stats.total,
        todayPoints);
      rows := rows[(userId, today) := update];
      r := Success(update);
    }
  }
}
