/** The in-memory fixed-window rate limiter of src/lib/rateLimit.ts: the
    store of per-key windows, the check that opens or counts into a window,
    the periodic sweep that drops expired windows, and the choice of the
    client identifier from the proxy headers. The clock is a parameter. */
module RateLimit {
  import opened Common

  /** A window: the calls counted in it and the instant (ms) it ends. */
  datatype Entry = Entry(count: nat, resetTime: int)

  /** `limit` calls per window of `windowSeconds`, under `identifier`. */
  datatype Config = Config(limit: int, windowSeconds: nat, identifier: string)

  datatype RateLimitResult = RateLimitResult(allowed: bool, remaining: int, resetIn: int, limit: int)

  const Standard := Config(60, 60, "standard")
  const LeetCodeSync := Config(10, 60, "leetcode-sync")
  const Leaderboard := Config(30, 60, "leaderboard")
  const AuthLimit := Config(20, 60, "auth")
  const Admin := Config(100, 60, "admin")

  /** `${identifier}:${key}`. */
  function StoreKey(identifier: string, key: string): string {
    identifier + ":" + key
  }

  /** Identifiers without a colon keep the keys of different identifiers
      and different client keys apart; every preset identifier is such. */
  lemma StoreKeyInjective(id1: string, key1: string, id2: string, key2: string)
    requires ':' !in id1 && ':' !in id2
    requires StoreKey(id1, key1) == StoreKey(id2, key2)
    ensures id1 == id2 && key1 == key2
  {
    assert StoreKey(id1, key1) == id1 + [':'] + key1;
    assert StoreKey(id2, key2) == id2 + [':'] + key2;
    SplitJoin(id1, ':', key1);
    SplitJoin(id2, ':', key2);
  }

  /** `Math.ceil(x / 1000)` for an integral number of milliseconds. */
  function CeilSeconds(x: int): (r: int)
    ensures (r - 1) * 1000 < x <= r * 1000
  {
    -((-x) / 1000)
  }

  /** `Math.max(0, x)`. */
  function NonNegative(x: int): (r: int)
    ensures r >= 0 && r >= x && (r == 0 || r == x)
  {
    if x > 0 then x else 0
  }

  /** One check against the entry stored for the key: with no entry, or one
      whose window ended strictly before `now`, a new window is opened and
      the call allowed; otherwise the call is counted into the window. */
  function Decide(entry: Option<Entry>, cfg: Config, now: int): (Entry, RateLimitResult) {
    if entry.None? || entry.value.resetTime < now then
      (Entry(1, now + cfg.windowSeconds * 1000),
       RateLimitResult(true, cfg.limit - 1, cfg.windowSeconds, cfg.limit))
    else
      var count := entry.value.count + 1;
      (Entry(count, entry.value.resetTime),
       RateLimitResult(count <= cfg.limit, NonNegative(cfg.limit - count),
                       CeilSeconds(entry.value.resetTime - now), cfg.limit))
  }

  /** With no window, or one that ended strictly before `now`, a new window
      of `windowSeconds` opens with this call counted and allowed. */
  lemma DecideOpensWindow(entry: Option<Entry>, cfg: Config, now: int)
    requires entry.None? || entry.value.resetTime < now
    ensures var (e', r) := Decide(entry, cfg, now);
            && e' == Entry(1, now + cfg.windowSeconds * 1000)
            && r == RateLimitResult(true, cfg.limit - 1, cfg.windowSeconds, cfg.limit)
  {
  }

  /** Inside a window the counter rises by exactly one, the call is allowed
      while the count stays within the limit, and the reset is the rest of
      the window rounded up to whole seconds. */
  lemma DecideInWindow(e: Entry, cfg: Config, now: int)
    requires now <= e.resetTime
    ensures var (e', r) := Decide(Some(e), cfg, now);
            && e'.count == e.count + 1 && e'.resetTime == e.resetTime
            && (r.allowed <==> e.count + 1 <= cfg.limit)
            && (r.remaining == 0 <==> e.count + 1 >= cfg.limit)
            && 0 <= r.resetIn
            && (r.resetIn - 1) * 1000 < e.resetTime - now <= r.resetIn * 1000
  {
  }

  /** The entry after a run of calls at the given instants. */
  function StateAfter(e: Option<Entry>, cfg: Config, times: seq<int>): Option<Entry> {
    if times == [] then e
    else
      var n := |times| - 1;
      Some(Decide(StateAfter(e, cfg, times[..n]), cfg, times[n]).0)
  }

  /** How many calls of the run are allowed. */
  function AllowedCount(e: Option<Entry>, cfg: Config, times: seq<int>): nat {
    if times == [] then 0
    else
      var n := |times| - 1;
      AllowedCount(e, cfg, times[..n]) + if Decide(StateAfter(e, cfg, times[..n]), cfg, times[n]).1.allowed then 1 else 0
  }

  /** A window opened by the first call of a run and not over by any later
      one counts every call, and allows the first `limit` of them (the
      opening call is allowed even for a limit below one). */
  lemma {:induction false} WindowCount(e: Option<Entry>, cfg: Config, times: seq<int>)
    requires |times| >= 1
    requires e.None? || e.value.resetTime < times[0]
    requires forall i :: 1 <= i < |times| ==> times[i] <= times[0] + cfg.windowSeconds * 1000
    ensures StateAfter(e, cfg, times) == Some(Entry(|times|, times[0] + cfg.windowSeconds * 1000))
    ensures AllowedCount(e, cfg, times) ==
              if |times| <= cfg.limit then |times| else if cfg.limit >= 1 then cfg.limit else 1
  {
    var n := |times| - 1;
    if n > 0 {
      var prefix := times[..n];
      assert prefix[0] == times[0];
      assert forall i :: 1 <= i < |prefix| ==> prefix[i] == times[i];
      WindowCount(e, cfg, prefix);
    }
  }

  /** With a limit of at least one, at most `limit` calls are allowed per
      key per window. */
  lemma WindowBound(e: Option<Entry>, cfg: Config, times: seq<int>)
    requires cfg.limit >= 1 && |times| >= 1
    requires e.None? || e.value.resetTime < times[0]
    requires forall i :: 1 <= i < |times| ==> times[i] <= times[0] + cfg.windowSeconds * 1000
    ensures AllowedCount(e, cfg, times) <= cfg.limit
  {
    WindowCount(e, cfg, times);
  }

  function Lookup(store: map<string, Entry>, k: string): Option<Entry> {
    if k in store then Some(store[k]) else None
  }

  /** The store without the windows that ended strictly before `now`. */
  function Live(store: map<string, Entry>, now: int): (m: map<string, Entry>)
    ensures forall k :: k in m <==> k in store && store[k].resetTime >= now
    ensures forall k :: k in m ==> m[k] == store[k]
  {
    map k | k in store && store[k].resetTime >= now :: store[k]
  }

  /** Dropping expired windows changes no later decision: an expired
      window is treated exactly like a missing one. */
  lemma CleanupTransparent(store: map<string, Entry>, swept: int, k: string, cfg: Config, now: int)
    requires swept <= now
    ensures Decide(Lookup(Live(store, swept), k), cfg, now) == Decide(Lookup(store, k), cfg, now)
  {
  }

  /** The module-level `Map` of windows. */
  class RateLimiter {
    var store: map<string, Entry>

    constructor ()
      ensures store == map[]
    {
      store := map[];
    }

    /** `checkRateLimit`: only the entry at `identifier:key` changes. */
    method CheckRateLimit(key: string, cfg: Config, now: int) returns (r: RateLimitResult)
      modifies this
      ensures var k := StoreKey(cfg.identifier, key);
              var (e, res) := Decide(Lookup(old(store), k), cfg, now);
              store == old(store)[k := e] && r == res
    {
      var storeKey := cfg.identifier + ":" + key;
      var windowMs := cfg.windowSeconds * 1000;
      if storeKey !in store || store[storeKey].resetTime < now {
        store := store[storeKey := Entry(1, now + windowMs)];
        return RateLimitResult(true, cfg.limit - 1, cfg.windowSeconds, cfg.limit);
      }
      var entry := store[storeKey];
      var count := entry.count + 1;
      store := store[storeKey := entry.(count := count)];
      var allowed := count <= cfg.limit;
      var remaining := if cfg.limit - count > 0 then cfg.limit - count else 0;
      var resetIn := CeilSeconds(entry.resetTime - now);
      r := RateLimitResult(allowed, remaining, resetIn, cfg.limit);
    }

    /** The periodic sweep: deletes exactly the windows that ended strictly
        before `now` and keeps every other entry as it was. */
    method Cleanup(now: int)
      modifies this
      ensures store == Live(old(store), now)
    {
      var keys := store.Keys;
      while keys != {}
        invariant keys <= old(store).Keys
        invariant forall k :: k in store <==> k in old(store) && (k in keys || old(store)[k].resetTime >= now)
        invariant forall k :: k in store ==> store[k] == old(store)[k]
        decreases keys
      {
        var k :| k in keys;
        if store[k].resetTime < now {
          store := store - {k};
        }
        keys := keys - {k};
      }
      assert store == Live(old(store), now);
    }
  }

  // ---------------------------------------------------------------------
  // The client identifier
  // ---------------------------------------------------------------------

  /** `req.headers.get(name)` over lower-case header names. */
  function Header(headers: map<string, string>, name: string): Option<string> {
    if name in headers then Some(headers[name]) else None
  }

  /** The first comma-separated part of a header, trimmed. */
  function FirstHop(value: string): (r: string)
    ensures ',' !in r
    ensures r != [] ==> !IsJsSpace(r[0]) && !IsJsSpace(r[|r| - 1])
  {
    var part := Before(value, ',');
    var r := Trim(part);
    assert r == part[|part| - |TrimStart(part)|..][..|r|];
    assert forall c :: c in r ==> c in part;
    r
  }

  /** `getClientIdentifier`. */
  function GetClientIdentifier(headers: map<string, string>): (r: string)
  {
    var forwardedFor := Header(headers, "x-forwarded-for");
    if Truthy(forwardedFor) then FirstHop(forwardedFor.value)
    else
      var realIp := Header(headers, "x-real-ip");
      if Truthy(realIp) then realIp.value
      else
        var vercel := Header(headers, "x-vercel-forwarded-for");
        if Truthy(vercel) then FirstHop(vercel.value)
        else "unknown"
  }

  /** The headers are tried in order: a non-empty x-forwarded-for decides
      alone, then x-real-ip, then x-vercel-forwarded-for, then the
      fallback. */
  lemma IdentifierPrecedence(headers: map<string, string>)
    ensures var xff := Header(headers, "x-forwarded-for");
            var realIp := Header(headers, "x-real-ip");
            var vercel := Header(headers, "x-vercel-forwarded-for");
            && (Truthy(xff) ==>
                  GetClientIdentifier(headers) == GetClientIdentifier(map["x-forwarded-for" := xff.value]))
            && (!Truthy(xff) && Truthy(realIp) ==> GetClientIdentifier(headers) == realIp.value)
            && (!Truthy(xff) && !Truthy(realIp) && Truthy(vercel) ==>
                  GetClientIdentifier(headers) == GetClientIdentifier(map["x-vercel-forwarded-for" := vercel.value]))
            && (!Truthy(xff) && !Truthy(realIp) && !Truthy(vercel) ==> GetClientIdentifier(headers) == "unknown")
  {
  }

  /** A forwarded chain yields a single address, with no comma and no
      surrounding white space. */
  lemma ForwardedIsOneHop(headers: map<string, string>)
    requires Truthy(Header(headers, "x-forwarded-for"))
    ensures var r := GetClientIdentifier(headers);
            ',' !in r && (r != [] ==> !IsJsSpace(r[0]) && !IsJsSpace(r[|r| - 1]))
  {
  }

  /** A chain that starts with a comma gives the empty identifier, even
      though the header itself is not empty. */
  lemma EmptyFirstHop(rest: string)
    ensures GetClientIdentifier(map["x-forwarded-for" := "," + rest]) == ""
  {
    var v := "," + rest;
    assert v[0] == ',';
    assert Before(v, ',') == [];
  }
}
