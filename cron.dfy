/** The scheduled automation of src/app/api/cron/route.ts: the "HH:MM"
    schedule match, the skip-day and counter-reset gates on the settings
    row, the per-channel eligibility, the sweep over the users that
    refreshes stats and sends within the daily quota, and the final write of
    the counters. The clock, the server's time-zone offset, and the outcomes
    of the stats refresh and of every send are inputs. */
module Cron {
  import opened Common
  import Auth

  const DayMillis := 86400000
  const MatchWindow := 15
  const NotTimeReason := "Not time or limit reached"
  const NoPhoneReason := "No phone number"
  const LimitReason := "Limit reached"

  // ---------------------------------------------------------------------
  // Schedules
  // ---------------------------------------------------------------------

  /** A JavaScript number as `Number(text)` yields it for the texts a
      schedule holds: a non-negative integer, or NaN. */
  datatype Number = NaN | Finite(value: nat)

  predicate AllDigits(s: string) {
    forall k :: 0 <= k < |s| ==> IsDigit(s[k])
  }

  /** `Number(text)`: surrounding white space is ignored and the empty
      string is 0; text of decimal digits is its value, anything else NaN. */
  function ToNumber(text: string): Number {
    Digits(Trim(text))
  }

  /** The value of a string of decimal digits, NaN when any character is
      not a digit; the empty string is 0. */
  function Digits(s: string): Number {
    if s == [] then Finite(0)
    else
      var prefix := Digits(s[..|s| - 1]);
      var c := s[|s| - 1];
      if prefix.Finite? && IsDigit(c) then Finite(10 * prefix.value + (c as int - '0' as int)) else NaN
  }

  lemma {:induction false} DigitsValue(s: string)
    requires AllDigits(s)
    ensures Digits(s) == Finite(DecimalValue(s))
  {
    if s != [] {
      var prefix := s[..|s| - 1];
      assert AllDigits(prefix) by {
        forall k | 0 <= k < |prefix| ensures IsDigit(prefix[k]) {
          assert prefix[k] == s[k];
        }
      }
      DigitsValue(prefix);
    }
  }

  /** `const [h, m] = text.split(':').map(Number); h * 60 + m`: a missing
      minute part is `Number(undefined)`, which is NaN. */
  function MinutesOf(text: string): Number {
    var h := ToNumber(Before(text, ':'));
    var m := if ':' in text then ToNumber(Before(After(text, ':'), ':')) else NaN;
    Combine(h, m)
  }

  /** `h * 60 + m`, NaN when either part is. */
  function Combine(h: Number, m: Number): Number {
    if h.Finite? && m.Finite? then Finite(h.value * 60 + m.value) else NaN
  }

  lemma MinutesOfSplit(text: string)
    requires ':' in text
    ensures MinutesOf(text) == Combine(ToNumber(Before(text, ':')), ToNumber(Before(After(text, ':'), ':')))
  {
  }

  /** A string of decimal digits is read as its decimal value. */
  lemma ToNumberDigits(s: string)
    requires AllDigits(s)
    ensures ToNumber(s) == Finite(DecimalValue(s))
  {
    if s != [] {
      assert !IsJsSpace(s[0]) && !IsJsSpace(s[|s| - 1]);
      assert Trim(s) == s;
    }
    DigitsValue(s);
  }

  /** Digit strings joined by a colon read back as hours and minutes. */
  lemma MinutesOfDigits(h: string, m: string)
    requires AllDigits(h) && AllDigits(m)
    ensures MinutesOf(h + ":" + m) == Finite(DecimalValue(h) * 60 + DecimalValue(m))
  {
    var text := h + ":" + m;
    assert text == h + [':'] + m;
    SplitJoin(h, ':', m);
    assert Before(text, ':') == h && ':' in text && After(text, ':') == m;
    BeforeWhole(m, ':');
    MinutesOfParts(text, h, m);
  }

  lemma MinutesOfParts(text: string, h: string, m: string)
    requires ':' in text && Before(text, ':') == h && Before(After(text, ':'), ':') == m
    requires AllDigits(h) && AllDigits(m)
    ensures MinutesOf(text) == Finite(DecimalValue(h) * 60 + DecimalValue(m))
  {
    MinutesOfSplit(text);
    NumbersAreDigits(h, m);
    CombineDigits(h, m);
  }

  /** Digit strings have no white space to trim. */
  lemma {:induction false} NumbersAreDigits(h: string, m: string)
    requires AllDigits(h) && AllDigits(m)
    ensures Combine(ToNumber(h), ToNumber(m)) == Combine(Digits(h), Digits(m))
  {
    ToNumberDigits(h);
    ToNumberDigits(m);
    DigitsValue(h);
    DigitsValue(m);
  }

  lemma {:induction false} CombineDigits(h: string, m: string)
    requires AllDigits(h) && AllDigits(m)
    ensures Combine(Digits(h), Digits(m)) == Finite(DecimalValue(h) * 60 + DecimalValue(m))
  {
    DigitsValue(h);
    DigitsValue(m);
  }

  /** `Math.abs(current - scheduled) <= 15`, false for NaN. */
  predicate Within(current: int, scheduled: Number) {
    scheduled.Finite? && -MatchWindow <= current - scheduled.value <= MatchWindow
  }

  predicate MatchesAt(schedule: seq<string>, current: int, i: int) {
    0 <= i < |schedule| && Within(current, MinutesOf(schedule[i]))
  }

  /** `schedule.some(...)`. */
  function AnyWithin(schedule: seq<string>, current: int): (r: bool)
    ensures r <==> exists i :: MatchesAt(schedule, current, i)
  {
    if schedule == [] then false
    else if Within(current, MinutesOf(schedule[0])) then
      assert MatchesAt(schedule, current, 0);
      true
    else
      var r := AnyWithin(schedule[1..], current);
      MatchesShift(schedule, current);
      r
  }

  lemma MatchesShift(schedule: seq<string>, current: int)
    requires schedule != []
    ensures (exists i :: MatchesAt(schedule, current, i)) <==>
            MatchesAt(schedule, current, 0) || exists i :: MatchesAt(schedule[1..], current, i)
  {
    if i :| MatchesAt(schedule, current, i) {
      if i > 0 {
        assert schedule[1..][i - 1] == schedule[i];
        assert MatchesAt(schedule[1..], current, i - 1);
      }
    }
    if i :| MatchesAt(schedule[1..], current, i) {
      assert schedule[1..][i] == schedule[i + 1];
      assert MatchesAt(schedule, current, i + 1);
    }
  }

  /** The current minute of the day. */
  function CurrentMinutes(hour: nat, minute: nat): nat {
    hour * 60 + minute
  }

  /** `isTimeToSend`: always in development mode; never for a missing or
      empty schedule; otherwise exactly when some entry is within 15 minutes
      of the current minute of the day, with no wrap-around at midnight. */
  function IsTimeToSend(schedule: Option<seq<string>>, hour: nat, minute: nat, devMode: bool): (r: bool)
    ensures devMode ==> r
    ensures !devMode && (schedule.None? || schedule.value == []) ==> !r
    ensures !devMode && schedule.Some? ==>
              (r <==> exists i :: MatchesAt(schedule.value, CurrentMinutes(hour, minute), i))
  {
    if devMode then true
    else if schedule.None? || schedule.value == [] then false
    else AnyWithin(schedule.value, CurrentMinutes(hour, minute))
  }

  /** A one-slot schedule "HH:MM" fires exactly within 15 minutes of that
      slot, both ends included. */
  lemma SlotWindow(h: string, m: string, hour: nat, minute: nat)
    requires AllDigits(h) && AllDigits(m)
    ensures IsTimeToSend(Some([h + ":" + m]), hour, minute, false) <==>
            -MatchWindow <= CurrentMinutes(hour, minute) - (DecimalValue(h) * 60 + DecimalValue(m)) <= MatchWindow
  {
    MinutesOfDigits(h, m);
    OneSlot(h + ":" + m, DecimalValue(h) * 60 + DecimalValue(m), hour, minute);
  }

  /** There is no wrap-around at midnight: a slot in the last quarter hour
      of the day never fires in the first quarter hour of the day. */
  lemma NoMidnightWrap(h: string, m: string, hour: nat, minute: nat)
    requires AllDigits(h) && AllDigits(m)
    requires DecimalValue(h) * 60 + DecimalValue(m) >= 23 * 60 + 45
    requires CurrentMinutes(hour, minute) < 15
    ensures !IsTimeToSend(Some([h + ":" + m]), hour, minute, false)
  {
    SlotWindow(h, m, hour, minute);
  }

  lemma OneSlot(text: string, v: nat, hour: nat, minute: nat)
    requires MinutesOf(text) == Finite(v)
    ensures IsTimeToSend(Some([text]), hour, minute, false) <==>
            -MatchWindow <= CurrentMinutes(hour, minute) - v <= MatchWindow
  {
    OneSlotSchedule(text, hour, minute);
    OneSlotWithin(text, CurrentMinutes(hour, minute));
  }

  lemma OneSlotSchedule(text: string, hour: nat, minute: nat)
    ensures IsTimeToSend(Some([text]), hour, minute, false) == AnyWithin([text], CurrentMinutes(hour, minute))
  {
  }

  lemma OneSlotWithin(text: string, current: int)
    ensures AnyWithin([text], current) == Within(current, MinutesOf(text))
  {
  }

  // ---------------------------------------------------------------------
  // The settings row and its gates
  // ---------------------------------------------------------------------

  /** The automation settings row. Instants are milliseconds since the
      epoch; each custom skip date is the instant its text parses to, or
      `None` when it is not a valid date. */
  datatype Setting = Setting(
    automationEnabled: bool,
    emailAutomationEnabled: bool,
    whatsappAutomationEnabled: bool,
    emailSchedule: Option<seq<string>>,
    whatsappSchedule: Option<seq<string>>,
    skipWeekends: bool,
    customSkipDates: Option<seq<Option<int>>>,
    emailsSentToday: Option<int>,
    whatsappSentToday: Option<int>,
    maxDailyEmails: Option<int>,
    maxDailyWhatsapp: Option<int>,
    lastResetDate: Option<int>,
    lastEmailSent: Option<int>,
    lastWhatsappSent: Option<int>)

  /** The server's local calendar day of an instant, for a time zone that is
      `offsetMs` ahead of UTC (what `toDateString` compares). */
  function LocalDay(ms: int, offsetMs: int): int {
    (ms + offsetMs) / DayMillis
  }

  /** `getDay()`: 0 is Sunday and 6 Saturday; the epoch fell on a Thursday. */
  function Weekday(ms: int, offsetMs: int): (d: int)
    ensures 0 <= d < 7
  {
    (LocalDay(ms, offsetMs) + 4) % 7
  }

  /** Consecutive local days have consecutive weekdays, wrapping from
      Saturday to Sunday. */
  lemma WeekdayNext(ms: int, offsetMs: int)
    ensures Weekday(ms + DayMillis, offsetMs) == (Weekday(ms, offsetMs) + 1) % 7
  {
    assert LocalDay(ms + DayMillis, offsetMs) == LocalDay(ms, offsetMs) + 1 by {
      assert ms + DayMillis + offsetMs == (ms + offsetMs) + DayMillis;
    }
  }

  /** 1970-01-03 was a Saturday and 1970-01-04 a Sunday, in UTC. */
  lemma FirstWeekend()
    ensures Weekday(2 * DayMillis, 0) == 6 && Weekday(3 * DayMillis, 0) == 0
  {
    assert LocalDay(2 * DayMillis, 0) == 2;
    assert LocalDay(3 * DayMillis, 0) == 3;
  }

  predicate SkipDateAt(dates: seq<Option<int>>, nowMs: int, offsetMs: int, i: int) {
    0 <= i < |dates| && dates[i].Some? && LocalDay(dates[i].value, offsetMs) == LocalDay(nowMs, offsetMs)
  }

  /** `customSkipDates.some(date => new Date(date).toDateString() === today)`;
      an invalid date renders as "Invalid Date" and never matches. */
  function AnySkipDate(dates: seq<Option<int>>, nowMs: int, offsetMs: int): (r: bool)
    ensures r <==> exists i :: SkipDateAt(dates, nowMs, offsetMs, i)
  {
    if dates == [] then false
    else if dates[0].Some? && LocalDay(dates[0].value, offsetMs) == LocalDay(nowMs, offsetMs) then
      assert SkipDateAt(dates, nowMs, offsetMs, 0);
      true
    else
      var r := AnySkipDate(dates[1..], nowMs, offsetMs);
      SkipDateShift(dates, nowMs, offsetMs);
      r
  }

  lemma SkipDateShift(dates: seq<Option<int>>, nowMs: int, offsetMs: int)
    requires dates != []
    ensures (exists i :: SkipDateAt(dates, nowMs, offsetMs, i)) <==>
            SkipDateAt(dates, nowMs, offsetMs, 0) || exists i :: SkipDateAt(dates[1..], nowMs, offsetMs, i)
  {
    if i :| SkipDateAt(dates, nowMs, offsetMs, i) {
      if i > 0 {
        assert dates[1..][i - 1] == dates[i];
        assert SkipDateAt(dates[1..], nowMs, offsetMs, i - 1);
      }
    }
    if i :| SkipDateAt(dates[1..], nowMs, offsetMs, i) {
      assert dates[1..][i] == dates[i + 1];
      assert SkipDateAt(dates, nowMs, offsetMs, i + 1);
    }
  }

  /** `shouldSkipToday`: a weekend day when weekends are skipped, or a day
      some custom skip date falls on. */
  function ShouldSkipToday(s: Setting, nowMs: int, offsetMs: int): (r: bool)
    ensures r <==> (s.skipWeekends && (Weekday(nowMs, offsetMs) == 0 || Weekday(nowMs, offsetMs) == 6))
                   || exists i :: SkipDateAt(OrElse(s.customSkipDates, []), nowMs, offsetMs, i)
  {
    var weekday := Weekday(nowMs, offsetMs);
    if s.skipWeekends && (weekday == 0 || weekday == 6) then true
    else AnySkipDate(OrElse(s.customSkipDates, []), nowMs, offsetMs)
  }

  /** `resetDailyCountersIfNeeded`: on a new local day (the epoch when never
      reset) both counters are zeroed and the reset instant recorded. */
  function ResetIfNeeded(s: Setting, nowMs: int, offsetMs: int): Setting {
    var lastReset := OrElse(s.lastResetDate, 0);
    if LocalDay(nowMs, offsetMs) != LocalDay(lastReset, offsetMs) then
      s.(emailsSentToday := Some(0), whatsappSentToday := Some(0), lastResetDate := Some(nowMs))
    else s
  }

  /** After a reset, a later reset on the same local day changes nothing,
      and no field but the counters and the reset instant ever changes. */
  lemma ResetOncePerDay(s: Setting, t1: int, t2: int, offsetMs: int)
    requires LocalDay(t1, offsetMs) == LocalDay(t2, offsetMs)
    ensures var once := ResetIfNeeded(s, t1, offsetMs);
            && ResetIfNeeded(once, t2, offsetMs) == once
            && once.(emailsSentToday := s.emailsSentToday, whatsappSentToday := s.whatsappSentToday,
                     lastResetDate := s.lastResetDate) == s
            && (once != s ==> once.emailsSentToday == Some(0) && once.whatsappSentToday == Some(0)
                              && once.lastResetDate == Some(t1))
  {
  }

  /** A row last reset on an earlier local day is reset. */
  lemma ResetOnNewDay(s: Setting, nowMs: int, offsetMs: int)
    requires LocalDay(OrElse(s.lastResetDate, 0), offsetMs) < LocalDay(nowMs, offsetMs)
    ensures var r := ResetIfNeeded(s, nowMs, offsetMs);
            r.emailsSentToday == Some(0) && r.whatsappSentToday == Some(0) && r.lastResetDate == Some(nowMs)
  {
  }

  predicate EmptySchedule(schedule: Option<seq<string>>) {
    schedule.None? || schedule.value == []
  }

  /** The schedule migration: missing or empty schedules get the defaults
      09:00 for e-mail and 09:30 for WhatsApp. */
  function Migrate(s: Setting): (r: Setting)
    ensures !EmptySchedule(r.emailSchedule) && !EmptySchedule(r.whatsappSchedule)
    ensures r.emailSchedule == if EmptySchedule(s.emailSchedule) then Some(["09:00"]) else s.emailSchedule
    ensures r.whatsappSchedule == if EmptySchedule(s.whatsappSchedule) then Some(["09:30"]) else s.whatsappSchedule
    ensures r.(emailSchedule := s.emailSchedule, whatsappSchedule := s.whatsappSchedule) == s
  {
    var s1 := if EmptySchedule(s.emailSchedule) then s.(emailSchedule := Some(["09:00"])) else s;
    if EmptySchedule(s1.whatsappSchedule) then s1.(whatsappSchedule := Some(["09:30"])) else s1
  }

  /** A channel is eligible when its toggle is on, it is time to send, and
      fewer than the daily maximum (default 1) have gone out (default 0). */
  function Eligible(toggle: bool, schedule: Option<seq<string>>, hour: nat, minute: nat, devMode: bool,
                    sentToday: Option<int>, maxDaily: Option<int>): bool {
    toggle && IsTimeToSend(schedule, hour, minute, devMode) && OrElse(sentToday, 0) < OrElse(maxDaily, 1)
  }

  // ---------------------------------------------------------------------
  // The sweep over the users
  // ---------------------------------------------------------------------

  /** `notLike(leetcodeUsername, 'pending_%')`: in a LIKE pattern `_` stands
      for any one character, so "pending" followed by at least one
      character is excluded. */
  predicate PendingLike(handle: string) {
    |handle| >= 8 && handle[..7] == "pending"
  }

  predicate IsRecipient(u: Auth.User) {
    u.role != "admin" && !PendingLike(u.leetcodeUsername)
  }

  /** The users the sweep visits, in table order. */
  function Recipients(all: seq<Auth.User>): (r: seq<Auth.User>)
    ensures |r| <= |all|
    ensures forall u :: u in r <==> u in all && IsRecipient(u)
  {
    if all == [] then []
    else
      var rest := Recipients(all[1..]);
      assert forall u :: u in all <==> u == all[0] || u in all[1..];
      if IsRecipient(all[0]) then [all[0]] + rest else rest
  }

  /** A "pending_" placeholder handle is never swept, and the match is
      wider: any "pending" followed by one more character is left out. */
  lemma PendingNotSwept(u: Auth.User)
    requires StartsWith(u.leetcodeUsername, "pending_") || (|u.leetcodeUsername| >= 8 && u.leetcodeUsername[..7] == "pending")
    ensures u !in Recipients([u])
  {
    if StartsWith(u.leetcodeUsername, "pending_") {
      assert u.leetcodeUsername[..7] == u.leetcodeUsername[..8][..7];
    }
  }

  /** The result of a refresh or a send: success, or failure with a message. */
  datatype Outcome = Ok | Err(message: string)

  /** What happened on one channel for one user. */
  datatype Delivery = Delivered | DeliveryFailed(error: string) | Skipped(reason: string)

  datatype UserResult = UserResult(
    username: string,
    email: string,
    phoneNumber: Option<string>,
    statsUpdate: Outcome,
    emailSent: Delivery,
    whatsappSent: Delivery)

  /** The per-invocation gates the sweep reads: the eligibility of each
      channel and its sent-today count and daily maximum, defaults applied. */
  datatype Gates = Gates(
    sendEmails: bool, sendWhatsApp: bool,
    emailPrior: int, emailMax: int,
    whatsappPrior: int, whatsappMax: int)

  /** The running counters and the results collected so far. */
  datatype Tally = Tally(emailsSent: nat, whatsappSent: nat, results: seq<UserResult>)

  /** One iteration: the stats refresh never blocks the sends; an e-mail
      goes out while the quota allows, a WhatsApp message also needs a
      phone number; a counter rises only on success. */
  function Step(t: Tally, g: Gates, u: Auth.User, stats: Outcome, email: Outcome, whatsapp: Outcome): Tally {
    var emailSent :=
      if g.sendEmails && t.emailsSent + g.emailPrior < g.emailMax then
        (if email.Ok? then Delivered else DeliveryFailed(email.message))
      else Skipped(NotTimeReason);
    var whatsappSent :=
      if g.sendWhatsApp && t.whatsappSent + g.whatsappPrior < g.whatsappMax && Truthy(u.phoneNumber) then
        (if whatsapp.Ok? then Delivered else DeliveryFailed(whatsapp.message))
      else Skipped(if !g.sendWhatsApp then NotTimeReason
                   else if !Truthy(u.phoneNumber) then NoPhoneReason
                   else LimitReason);
    Tally(
      t.emailsSent + (if emailSent.Delivered? then 1 else 0),
      t.whatsappSent + (if whatsappSent.Delivered? then 1 else 0),
      t.results + [UserResult(u.leetcodeUsername, u.email,
                              if Truthy(u.phoneNumber) then u.phoneNumber else None,
                              stats, emailSent, whatsappSent)])
  }

  /** The sweep over `users`, the i-th user meeting the i-th outcomes. */
  function Sweep(g: Gates, users: seq<Auth.User>, stats: seq<Outcome>, email: seq<Outcome>, whatsapp: seq<Outcome>): Tally
    requires |stats| == |users| && |email| == |users| && |whatsapp| == |users|
  {
    if users == [] then Tally(0, 0, [])
    else
      var n := |users| - 1;
      Step(Sweep(g, users[..n], stats[..n], email[..n], whatsapp[..n]), g, users[n], stats[n], email[n], whatsapp[n])
  }

  /** The filters the summary counts by. */
  datatype Column = StatsUpdated | EmailDelivered | WhatsappDelivered | EmailSkipped | WhatsappSkipped

  predicate Has(r: UserResult, c: Column) {
    match c
    case StatsUpdated => r.statsUpdate.Ok?
    case EmailDelivered => r.emailSent.Delivered?
    case WhatsappDelivered => r.whatsappSent.Delivered?
    case EmailSkipped => r.emailSent.Skipped?
    case WhatsappSkipped => r.whatsappSent.Skipped?
  }

  /** `results.filter(...).length`. */
  function Count(rs: seq<UserResult>, c: Column): (n: nat)
    ensures n <= |rs|
  {
    if rs == [] then 0 else Count(rs[..|rs| - 1], c) + (if Has(rs[|rs| - 1], c) then 1 else 0)
  }

  /** The quota bound: a channel that sends anything ends at most at its
      daily maximum, a channel that is not eligible sends nothing, and the
      counters are exactly the deliveries among the results. */
  lemma {:induction false} SweepQuota(g: Gates, users: seq<Auth.User>, stats: seq<Outcome>,
                                      email: seq<Outcome>, whatsapp: seq<Outcome>)
    requires |stats| == |users| && |email| == |users| && |whatsapp| == |users|
    ensures var t := Sweep(g, users, stats, email, whatsapp);
            && (t.emailsSent == 0 || g.emailPrior + t.emailsSent <= g.emailMax)
            && (t.whatsappSent == 0 || g.whatsappPrior + t.whatsappSent <= g.whatsappMax)
            && (!g.sendEmails ==> t.emailsSent == 0)
            && (!g.sendWhatsApp ==> t.whatsappSent == 0)
            && |t.results| == |users|
            && t.emailsSent == Count(t.results, EmailDelivered)
            && t.whatsappSent == Count(t.results, WhatsappDelivered)
  {
    if users != [] {
      var n := |users| - 1;
      SweepQuota(g, users[..n], stats[..n], email[..n], whatsapp[..n]);
      var t := Sweep(g, users[..n], stats[..n], email[..n], whatsapp[..n]);
      var t' := Sweep(g, users, stats, email, whatsapp);
      assert t'.results[..n] == t.results;
    }
  }

  /** Each result belongs to the user at the same position and records that
      user's refresh outcome; a user without a phone is never sent a
      WhatsApp message; an ineligible channel skips everyone. */
  lemma {:induction false} SweepResults(g: Gates, users: seq<Auth.User>, stats: seq<Outcome>,
                                        email: seq<Outcome>, whatsapp: seq<Outcome>)
    requires |stats| == |users| && |email| == |users| && |whatsapp| == |users|
    ensures var t := Sweep(g, users, stats, email, whatsapp);
            && |t.results| == |users|
            && (forall i :: 0 <= i < |users| ==>
                  && t.results[i].username == users[i].leetcodeUsername
                  && t.results[i].statsUpdate == stats[i]
                  && (!Truthy(users[i].phoneNumber) ==> t.results[i].whatsappSent.Skipped?)
                  && (!g.sendEmails ==> t.results[i].emailSent == Skipped(NotTimeReason))
                  && (!g.sendWhatsApp ==> t.results[i].whatsappSent == Skipped(NotTimeReason)))
  {
    if users != [] {
      var n := |users| - 1;
      SweepResults(g, users[..n], stats[..n], email[..n], whatsapp[..n]);
      var t := Sweep(g, users[..n], stats[..n], email[..n], whatsapp[..n]);
      var t' := Sweep(g, users, stats, email, whatsapp);
      assert t'.results == t.results + [t'.results[n]];
      forall i | 0 <= i < n
        ensures t'.results[i] == t.results[i]
        ensures users[..n][i] == users[i] && stats[..n][i] == stats[i]
      {
      }
    }
  }

  /** Two result lists that record the same e-mail and WhatsApp outcomes,
      user by user. */
  predicate SameSends(r1: seq<UserResult>, r2: seq<UserResult>) {
    |r1| == |r2| &&
    forall i :: 0 <= i < |r1| ==> r1[i].emailSent == r2[i].emailSent && r1[i].whatsappSent == r2[i].whatsappSent
  }

  /** One iteration from equal counters, with different refresh outcomes,
      sends the same. */
  lemma StepIgnoresRefresh(t1: Tally, t2: Tally, g: Gates, u: Auth.User, s1: Outcome, s2: Outcome,
                           email: Outcome, whatsapp: Outcome)
    requires t1.emailsSent == t2.emailsSent && t1.whatsappSent == t2.whatsappSent
    requires SameSends(t1.results, t2.results)
    ensures var n1 := Step(t1, g, u, s1, email, whatsapp);
            var n2 := Step(t2, g, u, s2, email, whatsapp);
            n1.emailsSent == n2.emailsSent && n1.whatsappSent == n2.whatsappSent
            && SameSends(n1.results, n2.results)
  {
    var n1 := Step(t1, g, u, s1, email, whatsapp);
    var n2 := Step(t2, g, u, s2, email, whatsapp);
    var k := |t1.results|;
    assert n1.results == t1.results + [n1.results[k]];
    assert n2.results == t2.results + [n2.results[k]];
    assert n1.results[k].emailSent == n2.results[k].emailSent;
    assert n1.results[k].whatsappSent == n2.results[k].whatsappSent;
  }

  /** A failed stats refresh changes nothing about the sends: the counters
      and every channel result are the same whatever the refresh outcomes. */
  lemma {:induction false} RefreshNeverBlocks(g: Gates, users: seq<Auth.User>, stats1: seq<Outcome>,
                                              stats2: seq<Outcome>, email: seq<Outcome>, whatsapp: seq<Outcome>)
    requires |stats1| == |users| && |stats2| == |users| && |email| == |users| && |whatsapp| == |users|
    ensures var t1 := Sweep(g, users, stats1, email, whatsapp);
            var t2 := Sweep(g, users, stats2, email, whatsapp);
            && t1.emailsSent == t2.emailsSent && t1.whatsappSent == t2.whatsappSent
            && SameSends(t1.results, t2.results)
  {
    if users != [] {
      var n := |users| - 1;
      RefreshNeverBlocks(g, users[..n], stats1[..n], stats2[..n], email[..n], whatsapp[..n]);
      StepIgnoresRefresh(Sweep(g, users[..n], stats1[..n], email[..n], whatsapp[..n]),
                         Sweep(g, users[..n], stats2[..n], email[..n], whatsapp[..n]),
                         g, users[n], stats1[n], stats2[n], email[n], whatsapp[n]);
    }
  }

  /** The loop of `GET` over the recipients. */
  method RunSweep(g: Gates, users: seq<Auth.User>, stats: seq<Outcome>, email: seq<Outcome>, whatsapp: seq<Outcome>)
    returns (emailsSentCount: nat, whatsappSentCount: nat, results: seq<UserResult>)
    requires |stats| == |users| && |email| == |users| && |whatsapp| == |users|
    ensures Tally(emailsSentCount, whatsappSentCount, results) == Sweep(g, users, stats, email, whatsapp)
  {
    emailsSentCount, whatsappSentCount, results := 0, 0, [];
    var i := 0;
    while i < |users|
      invariant 0 <= i <= |users|
      invariant Tally(emailsSentCount, whatsappSentCount, results) == Sweep(g, users[..i], stats[..i], email[..i], whatsapp[..i])
    {
      var user := users[i];
      var emailSent: Delivery;
      if g.sendEmails && emailsSentCount + g.emailPrior < g.emailMax {
        if email[i].Ok? {
          emailSent := Delivered;
          emailsSentCount := emailsSentCount + 1;
        } else {
          emailSent := DeliveryFailed(email[i].message);
        }
      } else {
        emailSent := Skipped(NotTimeReason);
      }
      var whatsappSent: Delivery;
      if g.sendWhatsApp && whatsappSentCount + g.whatsappPrior < g.whatsappMax && Truthy(user.phoneNumber) {
        if whatsapp[i].Ok? {
          whatsappSent := Delivered;
          whatsappSentCount := whatsappSentCount + 1;
        } else {
          whatsappSent := DeliveryFailed(whatsapp[i].message);
        }
      } else {
        var reason := if !g.sendWhatsApp then NotTimeReason
                      else if !Truthy(user.phoneNumber) then NoPhoneReason
                      else LimitReason;
        whatsappSent := Skipped(reason);
      }
      results := results + [UserResult(user.leetcodeUsername, user.email,
                                       if Truthy(user.phoneNumber) then user.phoneNumber else None,
                                       stats[i], emailSent, whatsappSent)];
      assert users[..i + 1][..i] == users[..i];
      assert stats[..i + 1][..i] == stats[..i];
      assert email[..i + 1][..i] == email[..i];
      assert whatsapp[..i + 1][..i] == whatsapp[..i];
      i := i + 1;
    }
    assert users[..i] == users && stats[..i] == stats && email[..i] == email && whatsapp[..i] == whatsapp;
  }

  // ---------------------------------------------------------------------
  // The handler
  // ---------------------------------------------------------------------

  /** The deployment the handler runs in. */
  datatype Env = Env(isProduction: bool, isDevelopment: bool, cronSecret: Option<string>, offsetMs: int)

  /** The request headers the handler reads. */
  datatype CronRequest = CronRequest(authorization: Option<string>, developmentMode: Option<string>)

  /** The wall clock: the instant, and the hour and minute in the time zone
      of the settings row. */
  datatype Clock = Clock(nowMs: int, hour: nat, minute: nat)

  datatype Summary = Summary(
    totalUsers: nat, statsUpdated: nat, emailsSent: nat, whatsappSent: nat,
    emailsSkipped: nat, whatsappSkipped: nat)

  datatype CronResponse =
    | Rejected(status: nat, message: string)
    | AutomationDisabled
    | DaySkipped
    | NotTime(shouldSendEmails: bool, shouldSendWhatsApp: bool)
    | Completed(summary: Summary, results: seq<UserResult>)

  /** The secret check: production without a secret is a configuration
      error; with a secret the header must be exactly "Bearer <secret>";
      without one only a non-production deployment is let through. */
  function CronAuth(env: Env, authorization: Option<string>): (r: Option<CronResponse>)
    ensures r.None? <==> if Truthy(env.cronSecret) then authorization == Some("Bearer " + env.cronSecret.value)
                         else !env.isProduction
    ensures r.Some? ==> r.value.Rejected? && (r.value.status == 500 <==> env.isProduction && !Truthy(env.cronSecret))
  {
    if env.isProduction && !Truthy(env.cronSecret) then Some(Rejected(500, "Server configuration error"))
    else if Truthy(env.cronSecret) then
      if authorization != Some("Bearer " + env.cronSecret.value) then
        Some(Rejected(401, "Unauthorized - Include Authorization: Bearer <CRON_SECRET> header"))
      else None
    else None
  }

  /** The row the gates read: the stored row (or the inserted defaults),
      migrated, then reset for a new day. */
  function Prepared(row: Option<Setting>, defaults: Setting, nowMs: int, offsetMs: int): Setting {
    ResetIfNeeded(Migrate(OrElse(row, defaults)), nowMs, offsetMs)
  }

  function GatesOf(s: Setting, clock: Clock, devMode: bool): Gates {
    Gates(
      Eligible(s.emailAutomationEnabled, s.emailSchedule, clock.hour, clock.minute, devMode,
               s.emailsSentToday, s.maxDailyEmails),
      Eligible(s.whatsappAutomationEnabled, s.whatsappSchedule, clock.hour, clock.minute, devMode,
               s.whatsappSentToday, s.maxDailyWhatsapp),
      OrElse(s.emailsSentToday, 0), OrElse(s.maxDailyEmails, 1),
      OrElse(s.whatsappSentToday, 0), OrElse(s.maxDailyWhatsapp, 1))
  }

  /** The final write: prior counts plus this run's successes; the last-sent
      instants move only for a channel that sent something. */
  function Persist(s: Setting, emailsSent: nat, whatsappSent: nat, nowMs: int): Setting {
    s.(emailsSentToday := Some(OrElse(s.emailsSentToday, 0) + emailsSent),
       whatsappSentToday := Some(OrElse(s.whatsappSentToday, 0) + whatsappSent),
       lastEmailSent := if emailsSent > 0 then Some(nowMs) else s.lastEmailSent,
       lastWhatsappSent := if whatsappSent > 0 then Some(nowMs) else s.lastWhatsappSent)
  }

  /** The persisted counters never pass a daily maximum that this run
      sent under. */
  lemma PersistWithinQuota(s: Setting, clock: Clock, devMode: bool, users: seq<Auth.User>,
                           stats: seq<Outcome>, email: seq<Outcome>, whatsapp: seq<Outcome>)
    requires |stats| == |users| && |email| == |users| && |whatsapp| == |users|
    ensures var t := Sweep(GatesOf(s, clock, devMode), users, stats, email, whatsapp);
            var p := Persist(s, t.emailsSent, t.whatsappSent, clock.nowMs);
            && (t.emailsSent > 0 ==> p.emailsSentToday.value <= OrElse(s.maxDailyEmails, 1))
            && (t.whatsappSent > 0 ==> p.whatsappSentToday.value <= OrElse(s.maxDailyWhatsapp, 1))
            && (t.emailsSent == 0 ==> p.lastEmailSent == s.lastEmailSent)
            && (t.whatsappSent == 0 ==> p.lastWhatsappSent == s.lastWhatsappSent)
  {
    SweepQuota(GatesOf(s, clock, devMode), users, stats, email, whatsapp);
  }

  /** The response of a completed run: the summary counts and the first
      five results. */
  function Report(t: Tally, totalUsers: nat): CronResponse {
    Completed(
      Summary(totalUsers, Count(t.results, StatsUpdated), t.emailsSent, t.whatsappSent,
              Count(t.results, EmailSkipped), Count(t.results, WhatsappSkipped)),
      Take(t.results, 5))
  }

  function Take(rs: seq<UserResult>, n: nat): (r: seq<UserResult>)
    ensures |r| <= n && |r| <= |rs| && r == rs[..|r|]
  {
    if |rs| <= n then rs else rs[..n]
  }

  /** Each result's e-mail outcome is either a delivery or a skip, never
      both, and likewise for WhatsApp. */
  lemma {:induction false} DeliveredOrSkipped(rs: seq<UserResult>)
    ensures Count(rs, EmailDelivered) + Count(rs, EmailSkipped) <= |rs|
    ensures Count(rs, WhatsappDelivered) + Count(rs, WhatsappSkipped) <= |rs|
  {
    if rs != [] {
      DeliveredOrSkipped(rs[..|rs| - 1]);
    }
  }

  /** The summary of a completed sweep: per channel, the sent and the
      skipped users together are at most all users, the refreshed ones
      are at most all users, and the sample is the first results, at most
      five of them. */
  lemma ReportSummary(g: Gates, users: seq<Auth.User>, stats: seq<Outcome>,
                      email: seq<Outcome>, whatsapp: seq<Outcome>)
    requires |stats| == |users| && |email| == |users| && |whatsapp| == |users|
    ensures var t := Sweep(g, users, stats, email, whatsapp);
            var resp := Report(t, |users|);
            && resp.summary.totalUsers == |users|
            && resp.summary.statsUpdated <= |users|
            && resp.summary.emailsSent + resp.summary.emailsSkipped <= |users|
            && resp.summary.whatsappSent + resp.summary.whatsappSkipped <= |users|
            && |resp.results| == (if |users| <= 5 then |users| else 5)
            && resp.results == t.results[..|resp.results|]
  {
    var t := Sweep(g, users, stats, email, whatsapp);
    SweepQuota(g, users, stats, email, whatsapp);
    DeliveredOrSkipped(t.results);
  }

  /** The settings table, of which the handler uses the first row. */
  class SettingsTable {
    var row: Option<Setting>

    constructor (row: Option<Setting>)
      ensures this.row == row
    {
      this.row := row;
    }

    /** Read the row (inserting the defaults into an empty table), migrate
        empty schedules and reset the counters on a new day, writing back
        each change. */
    method LoadSettings(defaults: Setting, nowMs: int, offsetMs: int) returns (s: Setting)
      modifies this
      ensures s == Prepared(old(row), defaults, nowMs, offsetMs) && row == Some(s)
    {
      if row.None? {
        row := Some(defaults);
      }
      s := row.value;
      var migrated := Migrate(s);
      if migrated != s {
        row := Some(migrated);
      }
      s := ResetIfNeeded(migrated, nowMs, offsetMs);
      if s != migrated {
        row := Some(s);
      }
    }

    /** The `GET` handler. `defaults` is the row an empty insert creates;
      the outcome sequences give, per recipient in order, the result of
      the stats refresh and of each send. */
    method Get(env: Env, req: CronRequest, clock: Clock, defaults: Setting, allUsers: seq<Auth.User>,
               stats: seq<Outcome>, email: seq<Outcome>, whatsapp: seq<Outcome>)
      returns (resp: CronResponse)
      requires |stats| == |Recipients(allUsers)| && |email| == |stats| && |whatsapp| == |stats|
      modifies this
      ensures CronAuth(env, req.authorization).Some? ==>
                resp == CronAuth(env, req.authorization).value && row == old(row)
      ensures CronAuth(env, req.authorization).None? ==>
                var s := Prepared(old(row), defaults, clock.nowMs, env.offsetMs);
                var devMode := env.isDevelopment || req.developmentMode == Some("true");
                var g := GatesOf(s, clock, devMode);
                var t := Sweep(g, Recipients(allUsers), stats, email, whatsapp);
                if !s.automationEnabled then resp == AutomationDisabled && row == Some(s)
                else if ShouldSkipToday(s, clock.nowMs, env.offsetMs) then resp == DaySkipped && row == Some(s)
                else if !g.sendEmails && !g.sendWhatsApp then resp == NotTime(false, false) && row == Some(s)
                else
                  && row == Some(Persist(s, t.emailsSent, t.whatsappSent, clock.nowMs))
                  && resp == Report(t, |Recipients(allUsers)|)
    {
      var rejected := CronAuth(env, req.authorization);
      if rejected.Some? {
        return rejected.value;
      }

      var s := LoadSettings(defaults, clock.nowMs, env.offsetMs);

      var devMode := env.isDevelopment || req.developmentMode == Some("true");
      if !s.automationEnabled {
        return AutomationDisabled;
      }
      if ShouldSkipToday(s, clock.nowMs, env.offsetMs) {
        return DaySkipped;
      }
      var g := GatesOf(s, clock, devMode);
      if !g.sendEmails && !g.sendWhatsApp {
        return NotTime(g.sendEmails, g.sendWhatsApp);
      }

      var recipients := Recipients(allUsers);
      var emailsSentCount, whatsappSentCount, results := RunSweep(g, recipients, stats, email, whatsapp);
      row := Some(Persist(s, emailsSentCount, whatsappSentCount, clock.nowMs));
      var summary := Summary(
        |recipients|,
        Count(results, StatsUpdated),
        emailsSentCount, whatsappSentCount,
        Count(results, EmailSkipped),
        Count(results, WhatsappSkipped));
      resp := Completed(summary, Take(results, 5));
      assert resp == Report(Tally(emailsSentCount, whatsappSentCount, results), |recipients|);
    }
  }
}
