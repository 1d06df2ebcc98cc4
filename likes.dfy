/** The like counter endpoint (api/likes.js): GET reads the count; POST
 *  adds a like and DELETE removes one, both under the same per-client
 *  budget of 20 calls a minute; DELETE never takes the count below 0. */
module Likes {
  import opened Basics
  import opened Store
  import opened RedisHelpers

  const LIKES_KEY: string := "stats:likes"
  const LIKES_LIMIT: int := 20
  const LIKES_WINDOW_SECONDS: real := 60.0

  /** The rate-limit counter a request from `ip` at `now` draws on. */
  function LikesBudgetKey(ip: string, now: real): string
    requires now >= 0.0
  {
    RateLimitKey("likes", ip, Window(now, LIKES_WINDOW_SECONDS))
  }

  /** Whether the request is over its client's budget for the window. */
  predicate Limited(req: Request, counters: map<string, int>, now: real)
    requires now >= 0.0
  {
    Count(counters, LikesBudgetKey(GetClientIp(req.forwardedFor), now)) + 1 > LIKES_LIMIT
  }

  /** The handler at clock reading `now`. */
  method Handle(redis: Redis, req: Request, now: real) returns (resp: Response)
    requires now >= 0.0
    modifies redis`counters, redis`expiries
    ensures req.verb == Get ==>
      resp == Response(200, Likes(Count(old(redis.counters), LIKES_KEY)))
      && redis.counters == old(redis.counters) && redis.expiries == old(redis.expiries)
    ensures req.verb == OtherMethod ==>
      resp == METHOD_NOT_ALLOWED && redis.counters == old(redis.counters) && redis.expiries == old(redis.expiries)
    ensures req.verb == Post || req.verb == Delete ==>
      var budget := LikesBudgetKey(GetClientIp(req.forwardedFor), now);
      Count(redis.counters, budget) == Count(old(redis.counters), budget) + 1
    ensures (req.verb == Post || req.verb == Delete) && Limited(req, old(redis.counters), now) ==>
      resp == TOO_MANY_REQUESTS && Count(redis.counters, LIKES_KEY) == Count(old(redis.counters), LIKES_KEY)
    ensures req.verb == Post && !Limited(req, old(redis.counters), now) ==>
      var before := Count(old(redis.counters), LIKES_KEY);
      resp == Response(200, Likes(before + 1)) && Count(redis.counters, LIKES_KEY) == before + 1
    ensures req.verb == Delete && !Limited(req, old(redis.counters), now) ==>
      var before := Count(old(redis.counters), LIKES_KEY);
      if before <= 0 then
        resp == Response(200, Likes(0)) && Count(redis.counters, LIKES_KEY) == before
      else
        resp == Response(200, Likes(before - 1)) && Count(redis.counters, LIKES_KEY) == before - 1
    ensures req.verb == Post || req.verb == Delete ==>
      redis.expiries == RateLimitExpiries(old(redis.expiries), old(redis.counters),
        LikesBudgetKey(GetClientIp(req.forwardedFor), now), LIKES_WINDOW_SECONDS)
    ensures req.verb == Delete && resp.reply.Likes? ==> resp.reply.likes >= 0
    ensures forall k :: k in redis.counters && k != LIKES_KEY && k != LikesBudgetKey(GetClientIp(req.forwardedFor), now) ==>
      k in old(redis.counters) && redis.counters[k] == old(redis.counters)[k]
  {
    var clientIp := GetClientIp(req.forwardedFor);
    ghost var budget := LikesBudgetKey(clientIp, now);
    assert LIKES_KEY[0] != "ratelimit:"[0];
    RateLimitKeyIsSeparate("likes", clientIp, Window(now, LIKES_WINDOW_SECONDS), LIKES_KEY);
    match req.verb
    case Get =>
      var likes := redis.ReadCount(LIKES_KEY);
      return Response(200, Likes(likes));
    case Post =>
      var allowed, _ := EnforceRateLimit(redis, "likes", clientIp, LIKES_LIMIT, LIKES_WINDOW_SECONDS, now);
      ghost var afterLimit := redis.counters;
      assert Count(afterLimit, LIKES_KEY) == Count(old(redis.counters), LIKES_KEY);
      if !allowed {
        OnlyTwoKeysChange(old(redis.counters), afterLimit, redis.counters, budget, LIKES_KEY);
        return TOO_MANY_REQUESTS;
      }
      var likes := redis.Incr(LIKES_KEY);
      OnlyTwoKeysChange(old(redis.counters), afterLimit, redis.counters, budget, LIKES_KEY);
      return Response(200, Likes(likes));
    case Delete =>
      var allowed, _ := EnforceRateLimit(redis, "likes", clientIp, LIKES_LIMIT, LIKES_WINDOW_SECONDS, now);
      ghost var afterLimit := redis.counters;
      assert Count(afterLimit, LIKES_KEY) == Count(old(redis.counters), LIKES_KEY);
      if !allowed {
        OnlyTwoKeysChange(old(redis.counters), afterLimit, redis.counters, budget, LIKES_KEY);
        return TOO_MANY_REQUESTS;
      }
      var currentLikes := redis.ReadCount(LIKES_KEY);
      assert currentLikes == Count(old(redis.counters), LIKES_KEY);
      if currentLikes <= 0 {
        OnlyTwoKeysChange(old(redis.counters), afterLimit, redis.counters, budget, LIKES_KEY);
        return Response(200, Likes(0));
      }
      var likes := redis.Decr(LIKES_KEY);
      assert likes == currentLikes - 1 && IntMax(likes, 0) == likes;
      OnlyTwoKeysChange(old(redis.counters), afterLimit, redis.counters, budget, LIKES_KEY);
      return Response(200, Likes(IntMax(likes, 0)));
    case OtherMethod =>
      return METHOD_NOT_ALLOWED;
  }
}
