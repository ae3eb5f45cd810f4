/** The admission control in front of the Gemini endpoints
    (GeminiRateLimiter): a one-minute and a one-day sliding window of request
    records, pruned on every request, with the minute limit checked before
    the daily one. Time is a parameter in milliseconds. */
module RateLimiter {
  import opened Wrappers
  import opened Text

  const WINDOW_MS := 60000
  const DAILY_WINDOW_MS := 86400000
  const MISSING_OLDEST := "Cannot read properties of undefined (reading 'timestamp')"

  datatype RequestRecord = RequestRecord(timestamp: int, userId: Option<int>)

  /** The two windows of the limiter. */
  datatype Windows = Windows(minute: seq<RequestRecord>, day: seq<RequestRecord>)

  /** The answer of the middleware: `next()`, one of the two 429 responses, or
      the TypeError thrown when a non-positive minute limit meets an empty
      window. */
  datatype Decision =
    | Admitted
    | MinuteLimit(retryAfter: int, limit: int, current: nat)
    | DailyLimit(limit: int, current: nat)
    | Crash(message: string)

  /** `records.filter(r => now - r.timestamp < window)`: every record
      younger than the window, as often as it occurs and in its order (see
      RecentConcat). */
  function Recent(records: seq<RequestRecord>, now: int, window: int): (r: seq<RequestRecord>)
    ensures |r| <= |records|
    ensures forall x :: x in r <==> x in records && now - x.timestamp < window
    ensures |records| == 1 ==> r == if now - records[0].timestamp < window then records else []
  {
    if records == [] then []
    else
      var rest := Recent(records[..|records| - 1], now, window);
      var last := records[|records| - 1];
      assert records == records[..|records| - 1] + [last];
      if now - last.timestamp < window then rest + [last] else rest
  }

  /** Each record is kept as often as it occurs in the window, and not at
      all outside it. */
  lemma {:induction false} RecentCounts(records: seq<RequestRecord>, now: int, window: int, x: RequestRecord)
    ensures multiset(Recent(records, now, window))[x] == if now - x.timestamp < window then multiset(records)[x] else 0
    decreases |records|
  {
    if records != [] {
      var init := records[..|records| - 1];
      assert records == init + [records[|records| - 1]];
      RecentCounts(init, now, window, x);
    }
  }

  /** The window filter distributes over concatenation, so the records it
      keeps stay in arrival order. */
  lemma {:induction false} RecentConcat(a: seq<RequestRecord>, b: seq<RequestRecord>, now: int, window: int)
    ensures Recent(a + b, now, window) == Recent(a, now, window) + Recent(b, now, window)
    decreases |b|
  {
    if b == [] {
      assert a + b == a;
    } else {
      assert (a + b)[..|a + b| - 1] == a + b[..|b| - 1];
      RecentConcat(a, b[..|b| - 1], now, window);
    }
  }

  /** `count >= limit`; a limit that is NaN is never reached. */
  predicate AtLimit(count: int, limit: Option<int>) {
    limit.Some? && count >= limit.value
  }

  /** `Math.ceil(n / d)` for a positive `d`. */
  function CeilDiv(n: int, d: int): (q: int)
    requires d > 0
    ensures (q - 1) * d < n <= q * d
  {
    -((-n) / d)
  }

  /** One run of the middleware at time `now`: the decision and the windows
      it leaves. */
  function Admit(w: Windows, now: int, userId: Option<int>, rpmLimit: Option<int>, dailyLimit: Option<int>): (Decision, Windows) {
    var minute := Recent(w.minute, now, WINDOW_MS);
    var day := Recent(w.day, now, DAILY_WINDOW_MS);
    if AtLimit(|minute|, rpmLimit) then
      if minute == [] then (Crash(MISSING_OLDEST), Windows(minute, day))
      else (MinuteLimit(CeilDiv(WINDOW_MS - (now - minute[0].timestamp), 1000), rpmLimit.value, |minute|), Windows(minute, day))
    else if AtLimit(|day|, dailyLimit) then
      (DailyLimit(dailyLimit.value, |day|), Windows(minute, day))
    else
      var record := RequestRecord(now, userId);
      (Admitted, Windows(minute + [record], day + [record]))
  }

  /** The admission order: the minute limit first, then the daily limit; a
      denial records nothing and an admission adds the same record to both
      windows. A denied caller is told to retry in at least one second. */
  lemma AdmissionOrder(w: Windows, now: int, userId: Option<int>, rpmLimit: Option<int>, dailyLimit: Option<int>)
    ensures var (d, w') := Admit(w, now, userId, rpmLimit, dailyLimit);
      var minute := Recent(w.minute, now, WINDOW_MS);
      var day := Recent(w.day, now, DAILY_WINDOW_MS);
      && (d.Admitted? <==> !AtLimit(|minute|, rpmLimit) && !AtLimit(|day|, dailyLimit))
      && (d.MinuteLimit? || d.Crash? <==> AtLimit(|minute|, rpmLimit))
      && (d.DailyLimit? <==> !AtLimit(|minute|, rpmLimit) && AtLimit(|day|, dailyLimit))
      && (d.MinuteLimit? ==> d.retryAfter >= 1 && d.current == |minute|)
      && (!d.Admitted? ==> w' == Windows(minute, day))
      && (d.Admitted? ==> w' == Windows(minute + [RequestRecord(now, userId)], day + [RequestRecord(now, userId)]))
  {
    var minute := Recent(w.minute, now, WINDOW_MS);
    if AtLimit(|minute|, rpmLimit) && minute != [] {
      assert minute[0] in minute;
      assert now - minute[0].timestamp < WINDOW_MS;
    }
  }

  /** Every record of the minute window is in the day window, before and
      after any run of the middleware. */
  predicate Nested(w: Windows) {
    forall x :: x in w.minute ==> x in w.day
  }

  lemma AdmitKeepsNested(w: Windows, now: int, userId: Option<int>, rpmLimit: Option<int>, dailyLimit: Option<int>)
    requires Nested(w)
    ensures Nested(Admit(w, now, userId, rpmLimit, dailyLimit).1)
  {
  }

  /** With a limit of `l`, the minute window never holds more than `l`
      records (or none, for a limit below one). */
  lemma AdmitKeepsMinuteBound(w: Windows, now: int, userId: Option<int>, l: int, dailyLimit: Option<int>)
    requires |w.minute| <= Max(l, 0)
    ensures |Admit(w, now, userId, Some(l), dailyLimit).1.minute| <= Max(l, 0)
  {
  }

  class GeminiRateLimiter {
    var requests: seq<RequestRecord>
    var dailyRequests: seq<RequestRecord>
    /** `parseInt(process.env.GEMINI_RPM_LIMIT || '15')`; None is NaN. */
    const rpmLimit: Option<int>
    /** `parseInt(process.env.GEMINI_DAILY_LIMIT || '1500')`. */
    const dailyLimit: Option<int>

    ghost predicate Valid()
      reads this
    {
      && Nested(Windows(requests, dailyRequests))
      && (rpmLimit.Some? ==> |requests| <= Max(rpmLimit.value, 0))
    }

    constructor(rpmSetting: string, dailySetting: string)
      ensures rpmLimit == EnvInt(rpmSetting, "15")
      ensures dailyLimit == EnvInt(dailySetting, "1500")
      ensures requests == [] && dailyRequests == []
      ensures Valid()
    {
      rpmLimit := EnvInt(rpmSetting, "15");
      dailyLimit := EnvInt(dailySetting, "1500");
      requests := [];
      dailyRequests := [];
    }

    /** `middleware`: prunes both windows, then admits or denies. */
    method Middleware(now: int, userId: Option<int>) returns (d: Decision)
      requires Valid()
      modifies this
      ensures Valid()
      ensures (d, Windows(requests, dailyRequests))
        == Admit(Windows(old(requests), old(dailyRequests)), now, userId, rpmLimit, dailyLimit)
    {
      ghost var w := Windows(requests, dailyRequests);
      AdmitKeepsNested(w, now, userId, rpmLimit, dailyLimit);
      if rpmLimit.Some? {
        AdmitKeepsMinuteBound(w, now, userId, rpmLimit.value, dailyLimit);
      }
      requests := Recent(requests, now, WINDOW_MS);
      dailyRequests := Recent(dailyRequests, now, DAILY_WINDOW_MS);
      if AtLimit(|requests|, rpmLimit) {
        if requests == [] {
          return Crash(MISSING_OLDEST);
        }
        var oldestRequest := requests[0];
        var waitTime := WINDOW_MS - (now - oldestRequest.timestamp);
        return MinuteLimit(CeilDiv(waitTime, 1000), rpmLimit.value, |requests|);
      }
      if AtLimit(|dailyRequests|, dailyLimit) {
        return DailyLimit(dailyLimit.value, |dailyRequests|);
      }
      var record := RequestRecord(now, userId);
      requests := requests + [record];
      dailyRequests := dailyRequests + [record];
      d := Admitted;
    }

    /** `getStats`: prunes, then reports the counts and what is left of each
        limit (None where the limit is NaN). */
    method GetStats(now: int) returns (lastMinute: nat, today: nat, rpmAvailable: Option<int>, dailyAvailable: Option<int>)
      requires Valid()
      modifies this
      ensures Valid()
      ensures requests == Recent(old(requests), now, WINDOW_MS)
      ensures dailyRequests == Recent(old(dailyRequests), now, DAILY_WINDOW_MS)
      ensures lastMinute == |requests| && today == |dailyRequests|
      ensures rpmAvailable == (if rpmLimit.Some? then Some(rpmLimit.value - lastMinute) else None)
      ensures dailyAvailable == (if dailyLimit.Some? then Some(dailyLimit.value - today) else None)
    {
      requests := Recent(requests, now, WINDOW_MS);
      dailyRequests := Recent(dailyRequests, now, DAILY_WINDOW_MS);
      lastMinute := |requests|;
      today := |dailyRequests|;
      rpmAvailable := if rpmLimit.Some? then Some(rpmLimit.value - lastMinute) else None;
      dailyAvailable := if dailyLimit.Some? then Some(dailyLimit.value - today) else None;
    }

    /** `reset`: both windows emptied. */
    method Reset()
      requires Valid()
      modifies this
      ensures Valid()
      ensures requests == [] && dailyRequests == []
    {
      requests := [];
      dailyRequests := [];
    }
  }
}
