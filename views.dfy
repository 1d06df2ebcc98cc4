/** The view counter endpoint (api/views.js): GET reads the count; POST
 *  counts a view under a per-client budget of 30 calls a minute, and a
 *  view carrying an identifier is counted once per client and identifier
 *  for ten minutes. */
module Views {
  import opened Basics
  import opened Text
  import opened Store
  import opened RedisHelpers

  const VIEWS_KEY: string := "stats:views"
  const VIEWS_LIMIT: int := 30
  const VIEWS_WINDOW_SECONDS: real := 60.0
  const VIEW_DEDUPE_TTL_SECONDS: real := 600.0
  const MAX_VIEW_ID: nat := 120

  /** The view identifier header, trimmed and cut to 120 characters. */
  function ViewId(header: Option<string>): (id: string)
    ensures |id| <= MAX_VIEW_ID
    ensures header.None? ==> id == []
    ensures header.Some? ==> id <= Trim(header.value) && |id| == IntMin(|Trim(header.value)|, MAX_VIEW_ID)
    ensures id == [] || !IsSpace(id[0])
  {
    Take(Trim(if header.Some? then header.value else ""), MAX_VIEW_ID)
  }

  /** The marker that records one client's view under one identifier. */
  function DedupeKey(ip: string, viewId: string): (k: string)
    ensures "dedupe:view:" <= k
  {
    "dedupe:view:" + ip + ":" + viewId
  }

  /** For one client, two identifiers share a marker exactly when they are
   *  the same identifier: what follows the client's prefix is the
   *  identifier itself. */
  lemma DedupeKeyDistinguishesViews(ip: string, a: string, b: string)
    ensures DedupeKey(ip, a) == DedupeKey(ip, b) <==> a == b
  {
    var prefix := "dedupe:view:" + ip + ":";
    if DedupeKey(ip, a) == DedupeKey(ip, b) {
      assert DedupeKey(ip, a)[|prefix|..] == a;
      assert DedupeKey(ip, b)[|prefix|..] == b;
    }
  }

  function ViewsBudgetKey(ip: string, now: real): string
    requires now >= 0.0
  {
    RateLimitKey("views", ip, Window(now, VIEWS_WINDOW_SECONDS))
  }

  /** Whether a view with identifier `id` from `ip` was already recorded. */
  predicate SeenAs(ip: string, id: string, strings: map<string, string>, counters: map<string, int>) {
    id != [] && (DedupeKey(ip, id) in strings || DedupeKey(ip, id) in counters)
  }

  /** What a POST leaves behind: the reply and the three maps of the store. */
  datatype Outcome = Outcome(resp: Response, counters: map<string, int>, strings: map<string, string>, expiries: map<string, real>)

  /** A POST within the rate limit: the count reported unchanged for a view
   *  already marked, otherwise the view counted and, when it carries an
   *  identifier, its marker written with the ten-minute expiry. */
  function Recorded(ip: string, id: string,
                    counters: map<string, int>, strings: map<string, string>, expiries: map<string, real>): Outcome
  {
    if SeenAs(ip, id, strings, counters) then
      Outcome(Response(200, Views(Count(counters, VIEWS_KEY))), counters, strings, expiries)
    else
      var views := Count(counters, VIEWS_KEY) + 1;
      if id == [] then Outcome(Response(200, Views(views)), counters[VIEWS_KEY := views], strings, expiries)
      else Outcome(Response(200, Views(views)), counters[VIEWS_KEY := views],
        strings[DedupeKey(ip, id) := "1"], expiries[DedupeKey(ip, id) := VIEW_DEDUPE_TTL_SECONDS])
  }

  /** Within the rate limit, the reply is the stored count afterwards, and it
   *  rose by one exactly when the view was not already marked. An
   *  identified view is marked afterwards; only a new one writes its marker
   *  and that marker's expiry, and no counter but the view count changes. */
  lemma RecordedSpec(ip: string, id: string,
                     counters: map<string, int>, strings: map<string, string>, expiries: map<string, real>)
    ensures var o := Recorded(ip, id, counters, strings, expiries);
      var seen := SeenAs(ip, id, strings, counters);
      var marker := DedupeKey(ip, id);
      && o.resp == Response(200, Views(Count(o.counters, VIEWS_KEY)))
      && Count(o.counters, VIEWS_KEY) == Count(counters, VIEWS_KEY) + (if seen then 0 else 1)
      && (forall k :: k in o.counters && k != VIEWS_KEY ==> k in counters && o.counters[k] == counters[k])
      && (id != [] ==> marker in o.strings || marker in o.counters)
      && (seen || id == [] ==> o.strings == strings && o.expiries == expiries)
      && (!seen && id != [] ==>
            o.strings == strings[marker := "1"] && o.expiries == expiries[marker := VIEW_DEDUPE_TTL_SECONDS])
  {
  }

  /** A POST from `ip` with identifier `id` that passed the rate limit:
   *  counts the view unless this client already sent a view with the same
   *  identifier. */
  method RecordView(redis: Redis, ip: string, id: string) returns (views: int)
    modifies redis`counters, redis`expiries, redis`strings
    ensures Outcome(Response(200, Views(views)), redis.counters, redis.strings, redis.expiries)
      == Recorded(ip, id, old(redis.counters), old(redis.strings), old(redis.expiries))
  {
    if id != [] {
      var dedupeSet := redis.SetIfAbsent(DedupeKey(ip, id), "1", VIEW_DEDUPE_TTL_SECONDS);
      if !dedupeSet {
        views := redis.ReadCount(VIEWS_KEY);
        return;
      }
    }
    views := redis.Incr(VIEWS_KEY);
  }

  /** The view counter, a client's budget counter and the client's marker
   *  for a view are three different keys. */
  lemma KeysAreSeparate(ip: string, id: string, now: real)
    requires now >= 0.0
    ensures var budget := ViewsBudgetKey(ip, now);
      budget != VIEWS_KEY && budget != DedupeKey(ip, id) && DedupeKey(ip, id) != VIEWS_KEY
  {
    var marker := DedupeKey(ip, id);
    assert VIEWS_KEY[0] != "ratelimit:"[0];
    assert marker[0] != "ratelimit:"[0] && marker[0] != VIEWS_KEY[0];
    RateLimitKeyIsSeparate("views", ip, Window(now, VIEWS_WINDOW_SECONDS), VIEWS_KEY);
    RateLimitKeyIsSeparate("views", ip, Window(now, VIEWS_WINDOW_SECONDS), marker);
  }

  /** The POST branch for client `ip` and view identifier `id` over a
   *  store holding `counters`, `strings` and `expiries`: spend a call of
   *  the budget (429 when over it), then count the view unless its marker
   *  is already there, writing the marker of a new identified view with its
   *  ten-minute expiry. */
  function PostOutcome(ip: string, id: string, now: real,
                       counters: map<string, int>, strings: map<string, string>, expiries: map<string, real>): Outcome
    requires now >= 0.0
  {
    var budget := ViewsBudgetKey(ip, now);
    var count := Count(counters, budget) + 1;
    var limited := counters[budget := count];
    var limitedExpiries := RateLimitExpiries(expiries, counters, budget, VIEWS_WINDOW_SECONDS);
    if count > VIEWS_LIMIT then Outcome(TOO_MANY_REQUESTS, limited, strings, limitedExpiries)
    else Recorded(ip, id, limited, strings, limitedExpiries)
  }

  /** What a POST promises: one call of the budget spent; over budget a 429
   *  without counting; a seen view's count reported unchanged; otherwise
   *  the view counted exactly once. Only the budget's expiry (on the
   *  window's first call) and a new view's marker are written, and no
   *  counter but the budget and the view count changes. */
  lemma PostOutcomeSpec(ip: string, id: string, now: real,
                        counters: map<string, int>, strings: map<string, string>, expiries: map<string, real>)
    requires now >= 0.0
    ensures var o := PostOutcome(ip, id, now, counters, strings, expiries);
      var budget := ViewsBudgetKey(ip, now);
      var before := Count(counters, VIEWS_KEY);
      var over := Count(counters, budget) + 1 > VIEWS_LIMIT;
      var seen := SeenAs(ip, id, strings, counters);
      var limitedExpiries := RateLimitExpiries(expiries, counters, budget, VIEWS_WINDOW_SECONDS);
      && Count(o.counters, budget) == Count(counters, budget) + 1
      && (if over then
            o.resp == TOO_MANY_REQUESTS && Count(o.counters, VIEWS_KEY) == before && o.strings == strings
          else if seen then
            o.resp == Response(200, Views(before)) && Count(o.counters, VIEWS_KEY) == before && o.strings == strings
          else
            o.resp == Response(200, Views(before + 1)) && Count(o.counters, VIEWS_KEY) == before + 1)
      && (!over && id != [] && !seen ==>
            o.strings == strings[DedupeKey(ip, id) := "1"]
            && o.expiries == limitedExpiries[DedupeKey(ip, id) := VIEW_DEDUPE_TTL_SECONDS])
      && (over || id == [] || seen ==> o.strings == strings && o.expiries == limitedExpiries)
      && (!over && id != [] ==> DedupeKey(ip, id) in o.strings || DedupeKey(ip, id) in o.counters)
      && (forall k :: k in o.counters && k != VIEWS_KEY && k != budget ==>
            k in counters && o.counters[k] == counters[k])
  {
    var budget := ViewsBudgetKey(ip, now);
    KeysAreSeparate(ip, id, now);
    var limited := counters[budget := Count(counters, budget) + 1];
    assert SeenAs(ip, id, strings, limited) == SeenAs(ip, id, strings, counters);
    assert Count(limited, VIEWS_KEY) == Count(counters, VIEWS_KEY);
  }

  /** Within the budget, a POST leaves what `Recorded` leaves over the
   *  store the rate limit produced. */
  lemma AllowedPostIsRecorded(ip: string, id: string, now: real,
                              counters: map<string, int>, strings: map<string, string>, expiries: map<string, real>,
                              limited: map<string, int>, limitedExpiries: map<string, real>)
    requires now >= 0.0
    requires Count(counters, ViewsBudgetKey(ip, now)) + 1 <= VIEWS_LIMIT
    requires limited == counters[ViewsBudgetKey(ip, now) := Count(counters, ViewsBudgetKey(ip, now)) + 1]
    requires limitedExpiries == RateLimitExpiries(expiries, counters, ViewsBudgetKey(ip, now), VIEWS_WINDOW_SECONDS)
    ensures PostOutcome(ip, id, now, counters, strings, expiries) == Recorded(ip, id, limited, strings, limitedExpiries)
  {
  }

  /** A POST from client `clientIp` for view `id`: spend one unit of the
   *  client's budget, then record the view if the budget allows it. */
  method CountView(redis: Redis, clientIp: string, id: string, now: real) returns (resp: Response)
    requires now >= 0.0
    modifies redis`counters, redis`expiries, redis`strings
    ensures Outcome(resp, redis.counters, redis.strings, redis.expiries)
      == PostOutcome(clientIp, id, now, old(redis.counters), old(redis.strings), old(redis.expiries))
  {
    ghost var counters, strings, expiries := redis.counters, redis.strings, redis.expiries;
    var budget := ViewsBudgetKey(clientIp, now);
    var allowed, count := EnforceRateLimit(redis, "views", clientIp, VIEWS_LIMIT, VIEWS_WINDOW_SECONDS, now);
    assert redis.expiries == RateLimitExpiries(expiries, counters, budget, VIEWS_WINDOW_SECONDS);
    if !allowed {
      return TOO_MANY_REQUESTS;
    }
    AllowedPostIsRecorded(clientIp, id, now, counters, strings, expiries, redis.counters, redis.expiries);
    var views := RecordView(redis, clientIp, id);
    resp := Response(200, Views(views));
  }

  /** The POST branch of the handler. */
  method PostView(redis: Redis, req: Request, now: real) returns (resp: Response)
    requires now >= 0.0
    modifies redis`counters, redis`expiries, redis`strings
    ensures Outcome(resp, redis.counters, redis.strings, redis.expiries)
      == PostOutcome(GetClientIp(req.forwardedFor), ViewId(req.viewId), now,
                     old(redis.counters), old(redis.strings), old(redis.expiries))
  {
    resp := CountView(redis, GetClientIp(req.forwardedFor), ViewId(req.viewId), now);
  }

  /** The handler at clock reading `now`. A POST leaves the outcome
   *  `PostOutcome` describes, whose properties `PostOutcomeSpec` states. */
  method Handle(redis: Redis, req: Request, now: real) returns (resp: Response)
    requires now >= 0.0
    modifies redis`counters, redis`expiries, redis`strings
    ensures req.verb == Get ==>
      resp == Response(200, Views(Count(old(redis.counters), VIEWS_KEY)))
      && redis.counters == old(redis.counters)
    ensures req.verb == Delete || req.verb == OtherMethod ==>
      resp == METHOD_NOT_ALLOWED && redis.counters == old(redis.counters)
    ensures req.verb != Post ==> redis.strings == old(redis.strings) && redis.expiries == old(redis.expiries)
    ensures req.verb == Post ==>
      Outcome(resp, redis.counters, redis.strings, redis.expiries)
        == PostOutcome(GetClientIp(req.forwardedFor), ViewId(req.viewId), now,
                       old(redis.counters), old(redis.strings), old(redis.expiries))
  {
    if req.verb == Get {
      var views := redis.ReadCount(VIEWS_KEY);
      return Response(200, Views(views));
    }
    if req.verb == Post {
      resp := PostView(redis, req, now);
      return;
    }
    return METHOD_NOT_ALLOWED;
  }

  /** The same client sending the same identified view twice — whatever
   *  happens to the second request, the counter moves at most once. */
  method RepeatViewCountsOnce(redis: Redis, req: Request, now: real, later: real)
    returns (first: Response, second: Response)
    requires now >= 0.0 && later >= 0.0
    requires req.verb == Post && ViewId(req.viewId) != []
    modifies redis`counters, redis`expiries, redis`strings
    ensures Count(redis.counters, VIEWS_KEY) <= Count(old(redis.counters), VIEWS_KEY) + 1
    ensures second.status == 200 ==> second.reply == Views(Count(redis.counters, VIEWS_KEY))
  {
    var ip, id := GetClientIp(req.forwardedFor), ViewId(req.viewId);
    PostOutcomeSpec(ip, id, now, redis.counters, redis.strings, redis.expiries);
    first := Handle(redis, req, now);
    PostOutcomeSpec(ip, id, later, redis.counters, redis.strings, redis.expiries);
    second := Handle(redis, req, later);
  }
}
