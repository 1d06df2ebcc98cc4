/** The request helpers shared by the API handlers (api/_redis.js): the
 *  client address from x-forwarded-for, the JSON body, and the fixed-window
 *  rate limiter over the store's counters. Also the request and response
 *  shapes the handlers use. */
module RedisHelpers {
  import opened Basics
  import opened Text
  import opened Store

  /** The x-forwarded-for header: missing, one string, or a list of
   *  strings. */
  datatype Header = Absent | One(value: string) | Many(items: seq<string>)

  /** What the handlers read from a JSON body: the submitted score after
   *  Number(), None when that is not a finite number (also when there is
   *  no score). */
  datatype Payload = Payload(score: Option<real>)

  /** The body of an empty JSON object. */
  const EMPTY_PAYLOAD: Payload := Payload(None)

  /** The request body as it arrives: none, raw text, or already parsed. */
  datatype Body = NoBody | Text(text: string) | Parsed(payload: Payload)

  datatype Method = Get | Post | Delete | OtherMethod

  datatype Request = Request(verb: Method, forwardedFor: Header, viewId: Option<string>, body: Body)

  /** A leaderboard row as the API returns it. */
  datatype Row = Row(rank: int, name: string, score: real)

  datatype Reply = Likes(likes: int) | Views(views: int) | Entries(entries: seq<Row>) | Error(message: string)

  datatype Response = Response(status: int, reply: Reply)

  const TOO_MANY_REQUESTS: Response := Response(429, Error("Too many requests"))
  const METHOD_NOT_ALLOWED: Response := Response(405, Error("Method not allowed"))

  /** getClientIp: the first address of the header, trimmed, or "unknown"
   *  when the header is missing or empty. The address never holds a comma;
   *  a list header only looks at its first element. */
  function GetClientIp(h: Header): (ip: string)
    ensures ',' !in ip
    ensures h.Absent? || h == One("") || h == Many([]) ==> ip == "unknown"
    ensures h.One? && h.value != "" ==> ip == FirstAddress(h.value)
    ensures h.Many? && h.items != [] ==> ip == FirstAddress(h.items[0])
  {
    match h
    case Many(items) =>
      if |items| > 0 then FirstAddress(items[0]) else "unknown"
    case One(value) =>
      if |value| > 0 then FirstAddress(value) else "unknown"
    case Absent => "unknown"
  }

  /** split(',')[0].trim() */
  function FirstAddress(s: string): (ip: string)
    ensures ',' !in ip
    ensures ip == Trim(BeforeComma(s))
  {
    var before := BeforeComma(s);
    TrimKeepsCharacters(before);
    Trim(before)
  }

  /** A list header behaves like its first element alone, except that an
   *  empty first element gives an empty address rather than "unknown". */
  lemma ListUsesFirstOnly(items: seq<string>)
    requires items != []
    ensures items[0] != "" ==> GetClientIp(Many(items)) == GetClientIp(One(items[0]))
    ensures items[0] == "" ==> GetClientIp(Many(items)) == ""
  {
    if items[0] == "" {
      assert BeforeComma("") == "";
    }
  }

  /** A single address with no comma and no white space comes back as
   *  it is. */
  lemma PlainAddress(s: string)
    requires s != [] && ',' !in s && forall i :: 0 <= i < |s| ==> !IsSpace(s[i])
    ensures GetClientIp(One(s)) == s
    ensures GetClientIp(Many([s])) == s
  {
    BeforeCommaOfPlain(s);
  }

  lemma {:induction false} BeforeCommaOfPlain(s: string)
    requires ',' !in s
    ensures BeforeComma(s) == s
  {
    if s != [] {
      assert ',' !in s[1..] by {
        assert forall i :: 0 <= i < |s[1..]| ==> s[1..][i] == s[i + 1];
      }
      BeforeCommaOfPlain(s[1..]);
    }
  }

  /** parseJsonBody with JSON.parse abstracted as `parse` (None when the
   *  text is not valid JSON): a missing or empty body is `{}`, text is
   *  parsed (`{}` when it fails), a parsed body is used as it is. */
  function ParseJsonBody(body: Body, parse: string -> Option<Payload>): (p: Payload)
    ensures body.NoBody? || body == Text("") ==> p == EMPTY_PAYLOAD
    ensures body.Text? && body.text != "" ==> p == (if parse(body.text).Some? then parse(body.text).value else EMPTY_PAYLOAD)
    ensures body.Parsed? ==> p == body.payload
  {
    match body
    case NoBody => EMPTY_PAYLOAD
    case Text(s) =>
      if s == "" then EMPTY_PAYLOAD
      else if parse(s).Some? then parse(s).value
      else EMPTY_PAYLOAD
    case Parsed(p) => p
  }

  /** Math.floor(now / (windowSeconds * 1000)): the number of the fixed
   *  window the clock reading falls in. */
  function Window(now: real, windowSeconds: real): (w: nat)
    requires now >= 0.0 && windowSeconds > 0.0
    ensures w as real * (windowSeconds * 1000.0) <= now < (w + 1) as real * (windowSeconds * 1000.0)
  {
    var span := windowSeconds * 1000.0;
    var w := (now / span).Floor;
    assert w as real <= now / span < w as real + 1.0;
    ScaleBounds(w as real, now / span, w as real + 1.0, span);
    assert now / span * span == now;
    assert now < (w as real + 1.0) * span;
    assert (w + 1) as real == w as real + 1.0;
    w
  }

  lemma ScaleBounds(lo: real, x: real, hi: real, c: real)
    requires lo <= x < hi && c > 0.0
    ensures lo * c <= x * c < hi * c
  {
  }

  /** `ratelimit:<scope>:<identifier>:<window>` */
  function RateLimitKey(scope: string, identifier: string, window: nat): (key: string)
    ensures "ratelimit:" <= key
  {
    "ratelimit:" + scope + ":" + identifier + ":" + ToRadix(window, 10)
  }

  /** For one scope and identifier, two windows share a counter exactly
   *  when they are the same window. */
  lemma SameWindowSameKey(scope: string, identifier: string, w1: nat, w2: nat)
    ensures RateLimitKey(scope, identifier, w1) == RateLimitKey(scope, identifier, w2) <==> w1 == w2
  {
    var prefix := "ratelimit:" + scope + ":" + identifier + ":";
    if RateLimitKey(scope, identifier, w1) == RateLimitKey(scope, identifier, w2) {
      assert RateLimitKey(scope, identifier, w1)[|prefix|..] == ToRadix(w1, 10);
      assert RateLimitKey(scope, identifier, w2)[|prefix|..] == ToRadix(w2, 10);
      RadixInjective(w1, w2, 10);
    }
  }

  /** No rate-limit key is a key that does not start with "ratelimit:". */
  lemma RateLimitKeyIsSeparate(scope: string, identifier: string, window: nat, other: string)
    requires !("ratelimit:" <= other)
    ensures RateLimitKey(scope, identifier, window) != other
  {
  }

  /** The expiries after a rate-limit call on `key` over `counters`: the
   *  window's first call sets the key's time to live, a later call leaves
   *  the expiries as they were. */
  function RateLimitExpiries(expiries: map<string, real>, counters: map<string, int>, key: string, windowSeconds: real): map<string, real> {
    if Count(counters, key) == 0 then expiries[key := windowSeconds] else expiries
  }

  /** A map updated at `a` and then perhaps at `b` agrees with the
   *  original everywhere else. */
  lemma OnlyTwoKeysChange(m0: map<string, int>, m1: map<string, int>, m2: map<string, int>, a: string, b: string)
    requires a in m1 && m1 == m0[a := m1[a]]
    requires m2 == m1 || (b in m2 && m2 == m1[b := m2[b]])
    ensures forall k :: k in m2 && k != a && k != b ==> k in m0 && m2[k] == m0[k]
  {
  }

  /** enforceRateLimit at clock reading `now`: counts the call in the
   *  current window's counter, sets the counter's expiry on the window's
   *  first call only, and allows the call while the count is within the
   *  limit. */
  method EnforceRateLimit(redis: Redis, scope: string, identifier: string, limit: int, windowSeconds: real, now: real)
    returns (allowed: bool, count: int)
    requires now >= 0.0 && windowSeconds > 0.0
    modifies redis`counters, redis`expiries
    ensures var key := RateLimitKey(scope, identifier, Window(now, windowSeconds));
      && count == Count(old(redis.counters), key) + 1
      && redis.counters == old(redis.counters)[key := count]
      && (count == 1 ==> redis.expiries == old(redis.expiries)[key := windowSeconds])
      && (count != 1 ==> redis.expiries == old(redis.expiries))
    ensures redis.strings == old(redis.strings) && redis.zsets == old(redis.zsets)
    ensures allowed <==> count <= limit
  {
    var key := RateLimitKey(scope, identifier, Window(now, windowSeconds));
    count := redis.Incr(key);
    if count == 1 {
      redis.Expire(key, windowSeconds);
    }
    allowed := count <= limit;
  }

  /** n calls in one window, starting from a window nobody has used: the
   *  k-th call (from 1) sees count k, so the first `limit` calls pass and
   *  every later one is refused; the expiry is set once. */
  method BurstInOneWindow(redis: Redis, scope: string, identifier: string, limit: int, windowSeconds: real, now: real, n: nat)
    returns (results: seq<bool>)
    requires now >= 0.0 && windowSeconds > 0.0
    requires RateLimitKey(scope, identifier, Window(now, windowSeconds)) !in redis.counters
    modifies redis`counters, redis`expiries
    ensures |results| == n
    ensures forall k :: 0 <= k < n ==> (results[k] <==> k + 1 <= limit)
    ensures redis.counters == old(redis.counters)[RateLimitKey(scope, identifier, Window(now, windowSeconds)) := n] || n == 0
  {
    var key := RateLimitKey(scope, identifier, Window(now, windowSeconds));
    results := [];
    while |results| < n
      invariant |results| <= n
      invariant forall k :: 0 <= k < |results| ==> (results[k] <==> k + 1 <= limit)
      invariant Count(redis.counters, key) == |results|
      invariant |results| > 0 ==> redis.counters == old(redis.counters)[key := |results|]
      invariant |results| == 0 ==> redis.counters == old(redis.counters)
    {
      var allowed, count := EnforceRateLimit(redis, scope, identifier, limit, windowSeconds, now);
      results := results + [allowed];
    }
  }
}
