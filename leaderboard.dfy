/** The leaderboard endpoint (api/memecoin-leaderboard.js): GET returns the
 *  ten best balances; POST submits the caller's balance under a budget of
 *  6 calls a minute, keeps only the caller's best score, and refuses
 *  scores that are not numbers or not above 1000. */
module Leaderboard {
  import opened Basics
  import opened SortedSet
  import opened Store
  import opened RedisHelpers
  import opened PlayerIdentity

  const LEADERBOARD_KEY: string := "game:memecoin:leaderboard"
  const MAX_ENTRIES: nat := 10
  const MIN_SUBMIT_SCORE: real := 1000.0
  const SUBMIT_LIMIT: int := 6
  const SUBMIT_WINDOW_SECONDS: real := 60.0

  const INVALID_SCORE: Response := Response(400, Error("Invalid score"))
  const SCORE_TOO_LOW: Response := Response(400, Error("Score must be above 1000"))

  /** One member and its score, as String(entry.member) and
   *  Number(entry.score) see them. */
  datatype MemberRow = MemberRow(member: string, score: real)

  /** One cell of a flat reply: a member name or a score. */
  datatype Cell = Name(text: string) | Score(value: real)

  /** What the range query may answer: not an array, an array of
   *  {member, score} objects, or a flat array alternating members and
   *  scores. */
  datatype Rows = NotArray | Objects(entries: seq<MemberRow>) | Flat(cells: seq<Cell>)

  /** String(cell); the text of a score cell is not modelled. */
  function CellText(c: Cell): string {
    match c
    case Name(t) => t
    case Score(_) => ""
  }

  /** Number(cell); the number of a name cell is not modelled. */
  function CellNumber(c: Cell): real {
    match c
    case Name(_) => 0.0
    case Score(v) => v
  }

  /** Rows ranked from `first` on, each named after its member. */
  function RankFrom(rows: seq<MemberRow>, first: int): (r: seq<Row>)
    ensures |r| == |rows|
    ensures forall k :: 0 <= k < |r| ==>
      r[k] == Row(first + k, BuildPlayerName(rows[k].member), rows[k].score)
  {
    if rows == [] then []
    else [Row(first, BuildPlayerName(rows[0].member), rows[0].score)] + RankFrom(rows[1..], first + 1)
  }

  function Ranked(rows: seq<MemberRow>): seq<Row> {
    RankFrom(rows, 1)
  }

  /** The flat array read two cells at a time; a trailing lone cell is
   *  dropped. */
  function Pairs(cells: seq<Cell>): (r: seq<MemberRow>)
    ensures |r| == |cells| / 2
    ensures forall k :: 0 <= k < |r| ==>
      r[k] == MemberRow(CellText(cells[2 * k]), CellNumber(cells[2 * k + 1]))
  {
    if |cells| < 2 then []
    else [MemberRow(CellText(cells[0]), CellNumber(cells[1]))] + Pairs(cells[2..])
  }

  /** mapLeaderboardRows. */
  method MapLeaderboardRows(rows: Rows) returns (mapped: seq<Row>)
    ensures rows.NotArray? ==> mapped == []
    ensures rows.Objects? ==> mapped == Ranked(rows.entries)
    ensures rows.Flat? ==> mapped == Ranked(Pairs(rows.cells))
  {
    match rows
    case NotArray =>
      return [];
    case Objects(entries) =>
      return Ranked(entries);
    case Flat(cells) =>
      mapped := MapFlatRows(cells);
  }

  /** The flat branch of mapLeaderboardRows: walks the cells two at a
   *  time, skipping a trailing lone cell, and ranks the pairs in order. */
  method MapFlatRows(cells: seq<Cell>) returns (mapped: seq<Row>)
    ensures mapped == Ranked(Pairs(cells))
  {
    mapped := [];
    var index := 0;
    while index < |cells|
      invariant 2 * |mapped| <= |cells|
      invariant index == 2 * |mapped| || (index == 2 * |mapped| + 2 && index == |cells| + 1)
      invariant forall k :: 0 <= k < |mapped| ==>
        mapped[k] == Row(k + 1, BuildPlayerName(CellText(cells[2 * k])), CellNumber(cells[2 * k + 1]))
      decreases |cells| - index
    {
      if index + 1 < |cells| {
        mapped := mapped + [Row(|mapped| + 1, BuildPlayerName(CellText(cells[index])), CellNumber(cells[index + 1]))];
      }
      index := index + 2;
    }
    var expected := Ranked(Pairs(cells));
    assert |mapped| == |expected|;
    assert forall k :: 0 <= k < |mapped| ==> mapped[k] == expected[k];
  }

  /** The sorted set as member rows. */
  function AsRows(s: seq<ZEntry>): (r: seq<MemberRow>)
    ensures |r| == |s|
    ensures forall k :: 0 <= k < |s| ==> r[k] == MemberRow(s[k].member, s[k].score)
  {
    if s == [] then [] else [MemberRow(s[0].member, s[0].score)] + AsRows(s[1..])
  }

  /** ZRANGE ... REV WITHSCORES: member, score, member, score, ... */
  function WithScores(s: seq<ZEntry>): (cells: seq<Cell>)
    ensures |cells| == 2 * |s|
    ensures forall k :: 0 <= k < |s| ==>
      cells[2 * k] == Name(s[k].member) && cells[2 * k + 1] == Score(s[k].score)
  {
    var cells := seq(2 * |s|, i requires 0 <= i < 2 * |s| =>
      if i % 2 == 0 then Name(s[i / 2].member) else Score(s[i / 2].score));
    assert forall k :: 0 <= k < |s| ==> (2 * k) / 2 == k && (2 * k + 1) / 2 == k && (2 * k + 1) % 2 == 1;
    cells
  }

  /** Reading the flat reply back gives the entries in the order sent. */
  lemma PairsOfWithScores(s: seq<ZEntry>)
    ensures Pairs(WithScores(s)) == AsRows(s)
  {
    var p := Pairs(WithScores(s));
    assert |p| == |s|;
    assert forall k :: 0 <= k < |s| ==> p[k] == AsRows(s)[k];
  }

  /** The standings shown for a sorted set: the ten best, ranked from 1. */
  function Standings(s: seq<ZEntry>): (r: seq<Row>)
    ensures |r| == IntMin(|s|, MAX_ENTRIES)
    ensures forall k :: 0 <= k < |r| ==> r[k].rank == k + 1
  {
    Ranked(AsRows(TopN(s, MAX_ENTRIES)))
  }

  /** What the standings promise: at most ten rows, ranked 1, 2, ...,
   *  best first, each the named score of an entry of the set, and no entry
   *  left out beats one shown. */
  lemma StandingsShape(s: seq<ZEntry>)
    requires Good(s)
    ensures var r := Standings(s);
      && |r| == IntMin(|s|, MAX_ENTRIES)
      && (forall k :: 0 <= k < |r| ==> r[k].rank == k + 1)
      && (forall k :: 0 <= k < |r| ==> r[k] == Row(k + 1, BuildPlayerName(s[k].member), s[k].score))
      && (forall i, j :: 0 <= i < j < |r| ==> r[i].score >= r[j].score)
      && (forall k, j :: 0 <= k < |r| && |r| <= j < |s| ==> r[k].score >= s[j].score)
  {
    var top := TopN(s, MAX_ENTRIES);
    assert forall k :: 0 <= k < |top| ==> top[k] == s[k];
  }

  /** readLeaderboard. */
  method ReadLeaderboard(redis: Redis) returns (entries: seq<Row>)
    requires redis.Valid()
    ensures entries == Standings(redis.ZSet(LEADERBOARD_KEY))
  {
    var top := TopN(redis.ZSet(LEADERBOARD_KEY), MAX_ENTRIES);
    entries := MapLeaderboardRows(Flat(WithScores(top)));
    PairsOfWithScores(top);
  }

  /** The score kept for a member after submitting `score`: the submission
   *  is written only when there is none yet or it is strictly higher. */
  function KeptScore(existing: Option<real>, score: real): (kept: real)
    ensures existing.None? ==> kept == score
    ensures existing.Some? ==> kept == Max(existing.value, score)
  {
    if existing.None? || score > existing.value then score else existing.value
  }

  /** The board after a valid submission: the member's score is replaced
   *  only when the submission beats it (or the member is new), so the
   *  member ends with the better of the two and nobody else changes. */
  function Submitted(board: seq<ZEntry>, member: string, score: real): (r: seq<ZEntry>)
    requires Good(board)
    ensures Good(r)
    ensures ZScore(r, member) == Some(KeptScore(ZScore(board, member), score))
    ensures forall other :: other != member ==> ZScore(r, other) == ZScore(board, other)
  {
    var existing := ZScore(board, member);
    if existing.None? || score > existing.value then
      assert forall other :: other != member ==> ZScore(ZAdd(board, member, score), other) == ZScore(board, other) by {
        forall other | other != member
          ensures ZScore(ZAdd(board, member, score), other) == ZScore(board, other)
        {
          ZAddScores(board, member, score, other);
        }
      }
      ZAddScores(board, member, score, member);
      ZAdd(board, member, score)
    else
      board
  }

  function SubmitBudgetKey(ip: string, now: real): string
    requires now >= 0.0
  {
    RateLimitKey("memecoin-leaderboard-submit", ip, Window(now, SUBMIT_WINDOW_SECONDS))
  }

  /** The score a POST carries, after JSON parsing and normalisation. */
  function SubmittedScore(req: Request, parse: string -> Option<Payload>): Option<real> {
    NormalizeBalance(ParseJsonBody(req.body, parse).score)
  }

  /** A submission past the rate limit: validate, keep the best, reply
   *  with the standings. */
  method Submit(redis: Redis, member: string, score: Option<real>) returns (resp: Response)
    requires redis.Valid()
    modifies redis`zsets
    ensures redis.Valid()
    ensures score.None? ==> resp == INVALID_SCORE && redis.zsets == old(redis.zsets)
    ensures score.Some? && score.value <= MIN_SUBMIT_SCORE ==>
      resp == SCORE_TOO_LOW && redis.zsets == old(redis.zsets)
    ensures score.Some? && score.value > MIN_SUBMIT_SCORE ==>
      && redis.ZSet(LEADERBOARD_KEY) == Submitted(old(redis.ZSet(LEADERBOARD_KEY)), member, score.value)
      && resp == Response(200, Entries(Standings(redis.ZSet(LEADERBOARD_KEY))))
    ensures redis.zsets == old(redis.zsets) ||
      (LEADERBOARD_KEY in redis.zsets && redis.zsets == old(redis.zsets)[LEADERBOARD_KEY := redis.zsets[LEADERBOARD_KEY]])
  {
    if score.None? {
      return INVALID_SCORE;
    }
    if score.value <= MIN_SUBMIT_SCORE {
      return SCORE_TOO_LOW;
    }
    var board := redis.ZSet(LEADERBOARD_KEY);
    ghost var kept := Submitted(board, member, score.value);
    var existingScore := ZScore(board, member);
    if existingScore.None? || score.value > existingScore.value {
      redis.ZAddMember(LEADERBOARD_KEY, member, score.value);
    }
    assert redis.ZSet(LEADERBOARD_KEY) == kept;
    var entries := ReadLeaderboard(redis);
    return Response(200, Entries(entries));
  }

  /** The handler at clock reading `now`, with JSON.parse as `parse`. */
  method Handle(redis: Redis, req: Request, now: real, parse: string -> Option<Payload>) returns (resp: Response)
    requires now >= 0.0 && redis.Valid()
    modifies redis`counters, redis`expiries, redis`zsets
    ensures redis.Valid()
    ensures req.verb == Get ==>
      resp == Response(200, Entries(Standings(redis.ZSet(LEADERBOARD_KEY))))
      && redis.counters == old(redis.counters) && redis.zsets == old(redis.zsets)
    ensures req.verb == Delete || req.verb == OtherMethod ==>
      resp == METHOD_NOT_ALLOWED && redis.counters == old(redis.counters) && redis.zsets == old(redis.zsets)
    ensures req.verb != Post ==> redis.expiries == old(redis.expiries)
    ensures req.verb == Post ==>
      var budget := SubmitBudgetKey(GetClientIp(req.forwardedFor), now);
      var before := Count(old(redis.counters), budget);
      && redis.counters == old(redis.counters)[budget := before + 1]
      && (before == 0 ==> redis.expiries == old(redis.expiries)[budget := SUBMIT_WINDOW_SECONDS])
      && (before != 0 ==> redis.expiries == old(redis.expiries))
      && (redis.zsets == old(redis.zsets) ||
          (LEADERBOARD_KEY in redis.zsets && redis.zsets == old(redis.zsets)[LEADERBOARD_KEY := redis.zsets[LEADERBOARD_KEY]]))
    ensures req.verb == Post && Count(old(redis.counters), SubmitBudgetKey(GetClientIp(req.forwardedFor), now)) >= SUBMIT_LIMIT ==>
      resp == TOO_MANY_REQUESTS && redis.zsets == old(redis.zsets)
    ensures req.verb == Post && Count(old(redis.counters), SubmitBudgetKey(GetClientIp(req.forwardedFor), now)) < SUBMIT_LIMIT ==>
      var score := SubmittedScore(req, parse);
      var member := PlayerMember(GetClientIp(req.forwardedFor));
      && (score.None? ==> resp == INVALID_SCORE && redis.zsets == old(redis.zsets))
      && (score.Some? && score.value <= MIN_SUBMIT_SCORE ==> resp == SCORE_TOO_LOW && redis.zsets == old(redis.zsets))
      && (score.Some? && score.value > MIN_SUBMIT_SCORE ==>
            && redis.ZSet(LEADERBOARD_KEY) == Submitted(old(redis.ZSet(LEADERBOARD_KEY)), member, score.value)
            && resp == Response(200, Entries(Standings(redis.ZSet(LEADERBOARD_KEY)))))
  {
    var clientIp := GetClientIp(req.forwardedFor);
    if req.verb == Get {
      var entries := ReadLeaderboard(redis);
      return Response(200, Entries(entries));
    }
    if req.verb == Post {
      var allowed, _ := EnforceRateLimit(redis, "memecoin-leaderboard-submit", clientIp, SUBMIT_LIMIT, SUBMIT_WINDOW_SECONDS, now);
      assert redis.zsets == old(redis.zsets);
      assert redis.ZSet(LEADERBOARD_KEY) == old(redis.ZSet(LEADERBOARD_KEY));
      ghost var afterLimit := redis.counters;
      ghost var expiriesAfterLimit := redis.expiries;
      if !allowed {
        return TOO_MANY_REQUESTS;
      }
      var body := ParseJsonBody(req.body, parse);
      var score := NormalizeBalance(body.score);
      assert score == SubmittedScore(req, parse);
      var member := BuildPlayerMember(clientIp);
      resp := Submit(redis, member, score);
      assert redis.counters == afterLimit && redis.expiries == expiriesAfterLimit;
      return;
    }
    return METHOD_NOT_ALLOWED;
  }
}
