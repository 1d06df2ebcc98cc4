/** The arithmetic of the memecoin futures simulator
 *  (src/pages/MemecoinSimulatorPage.tsx): leveraged profit and loss,
 *  liquidation, payouts, collateral, the anti-streak trend picker's
 *  candidates, the price step, the capped candle history, the visible chart
 *  window and the input clamps. */
module MarketMath {
  import opened Basics

  const STARTING_BALANCE: real := 1000.0
  const STARTING_MARKET_CAP: real := 1000000.0
  const SIMULATION_INTERVAL_MS: real := 1000.0
  const VISIBLE_CANDLES: int := 56
  const MAX_CANDLE_HISTORY: int := 320
  const LEVERAGE: real := 5.0
  /** The smallest stake a trade can open with. */
  const MIN_COLLATERAL: real := 10.0
  /** The market cap never falls below this. */
  const PRICE_FLOOR: real := 25000.0
  const TREND_MODES: seq<real> := [-0.014, -0.01, -0.006, 0.0, 0.006, 0.01, 0.014]

  predicate InUnit(r: real) {
    0.0 <= r < 1.0
  }

  datatype Side = Long | Short

  datatype Position = Position(side: Side, entry: real, collateral: real)

  datatype Candle = Candle(open: real, high: real, low: real, close: real)

  /** ---------- Profit and loss ---------- */

  /** The leveraged profit multiple of a position at market cap `cap`: a
   *  long gains five times the relative rise, a short five times the
   *  relative fall measured against the current cap. No position, no
   *  profit. */
  function PnlMultiple(position: Option<Position>, cap: real): (r: real)
    requires cap > 0.0
    requires position.Some? ==> position.value.entry > 0.0
    ensures position.None? ==> r == 0.0
    ensures position.Some? && position.value.side == Long ==>
      position.value.entry * r == LEVERAGE * (cap - position.value.entry)
    ensures position.Some? && position.value.side == Short ==>
      cap * r == LEVERAGE * (position.value.entry - cap)
  {
    match position
    case None => 0.0
    case Some(p) =>
      if p.side == Long then (cap / p.entry - 1.0) * LEVERAGE
      else (p.entry / cap - 1.0) * LEVERAGE
  }

  /** Profit exactly when the price moved the position's way, nothing at
   *  the entry price. */
  lemma PnlSign(p: Position, cap: real)
    requires cap > 0.0 && p.entry > 0.0
    ensures PnlMultiple(Some(p), cap) == 0.0 <==> cap == p.entry
    ensures p.side == Long ==> (PnlMultiple(Some(p), cap) > 0.0 <==> cap > p.entry)
    ensures p.side == Short ==> (PnlMultiple(Some(p), cap) > 0.0 <==> cap < p.entry)
  {
    var r := PnlMultiple(Some(p), cap);
    if p.side == Long {
      assert p.entry * r == LEVERAGE * (cap - p.entry);
    } else {
      assert cap * r == LEVERAGE * (p.entry - cap);
    }
  }

  /** The sign of a product with a positive factor is the other factor's. */
  lemma PositiveFactor(a: real, x: real)
    requires a > 0.0
    ensures a * x <= 0.0 <==> x <= 0.0
  {
    if x > 0.0 {
      assert a * x > 0.0;
    }
  }

  /** A position is wiped out (multiple at or below -1) when a long's cap
   *  falls to 80% of the entry, or a short's cap rises to 125% of it. */
  lemma LiquidationThresholds(p: Position, cap: real)
    requires cap > 0.0 && p.entry > 0.0
    ensures p.side == Long ==> (PnlMultiple(Some(p), cap) <= -1.0 <==> cap <= 0.8 * p.entry)
    ensures p.side == Short ==> (PnlMultiple(Some(p), cap) <= -1.0 <==> cap >= 1.25 * p.entry)
  {
    var r := PnlMultiple(Some(p), cap);
    if p.side == Long {
      assert p.entry * r == LEVERAGE * (cap - p.entry);
      assert p.entry * (r + 1.0) == 5.0 * cap - 4.0 * p.entry;
      PositiveFactor(p.entry, r + 1.0);
    } else {
      assert cap * r == LEVERAGE * (p.entry - cap);
      assert cap * (r + 1.0) == 5.0 * p.entry - 4.0 * cap;
      PositiveFactor(cap, r + 1.0);
    }
  }

  /** The percentage shown for a position never goes below -100%. */
  function CappedPnl(pnl: real): (r: real)
    ensures r >= -1.0
    ensures pnl >= -1.0 ==> r == pnl
    ensures pnl < -1.0 ==> r == -1.0
  {
    Max(pnl, -1.0)
  }

  /** What closing a position pays back: the collateral grown by the
   *  multiple, never less than nothing. */
  function Payout(p: Position, cap: real): (r: real)
    requires cap > 0.0 && p.entry > 0.0 && p.collateral >= 0.0
    ensures r >= 0.0
    ensures cap == p.entry ==> r == p.collateral
    ensures PnlMultiple(Some(p), cap) <= -1.0 ==> r == 0.0
    ensures PnlMultiple(Some(p), cap) > -1.0 ==> r == p.collateral * (1.0 + PnlMultiple(Some(p), cap))
  {
    var pnl := PnlMultiple(Some(p), cap);
    PnlSign(p, cap);
    var grown := p.collateral * (1.0 + pnl);
    assert pnl <= -1.0 ==> grown <= 0.0 by {
      if pnl <= -1.0 {
        WipedOut(p.collateral, 1.0 + pnl);
      }
    }
    Max(0.0, grown)
  }

  lemma WipedOut(collateral: real, growth: real)
    requires collateral >= 0.0 && growth <= 0.0
    ensures collateral * growth <= 0.0
  {
    assert collateral * -growth >= 0.0;
  }

  /** A long of 100 opened at 1,000,000 and closed at 1,100,000 is up 50%
   *  and pays 150. */
  lemma PayoutExample()
    ensures Payout(Position(Long, 1000000.0, 100.0), 1100000.0) == 150.0
  {
    var p := Position(Long, 1000000.0, 100.0);
    assert PnlMultiple(Some(p), 1100000.0) == 0.5;
  }

  /** The stake of a new trade: the requested amount limited to the balance,
   *  but at least the minimum. */
  function Collateral(tradeAmount: real, balance: real): (c: real)
    ensures c >= MIN_COLLATERAL
    ensures balance >= MIN_COLLATERAL ==> c <= balance
    ensures balance >= MIN_COLLATERAL && MIN_COLLATERAL <= tradeAmount <= balance ==> c == tradeAmount
    ensures balance >= MIN_COLLATERAL && tradeAmount > balance ==> c == balance
    ensures tradeAmount <= MIN_COLLATERAL || balance < MIN_COLLATERAL ==> c == MIN_COLLATERAL
  {
    Max(MIN_COLLATERAL, Min(tradeAmount, balance))
  }

  /** openTrade's own refusal test (stake above the balance or not
   *  positive) refuses exactly when the balance is below the minimum. */
  lemma OpenRefusedIffPoor(tradeAmount: real, balance: real)
    ensures var c := Collateral(tradeAmount, balance);
      (c > balance || c <= 0.0) <==> balance < MIN_COLLATERAL
  {
  }

  /** ---------- Trend picking ---------- */

  /** The modes whose sign is not `dir`, in their order. */
  function ExcludeSign(modes: seq<real>, dir: int): (r: seq<real>)
    ensures |r| <= |modes|
  {
    if modes == [] then []
    else (if Sign(modes[0]) != dir then [modes[0]] else []) + ExcludeSign(modes[1..], dir)
  }

  /** The modes whose sign is not `dir`, plus the zero mode, in their
   *  order. */
  function ExcludeSignKeepZero(modes: seq<real>, dir: int): (r: seq<real>)
    ensures |r| <= |modes|
  {
    if modes == [] then []
    else (if Sign(modes[0]) != dir || modes[0] == 0.0 then [modes[0]] else []) + ExcludeSignKeepZero(modes[1..], dir)
  }

  /** ExcludeSign keeps exactly the modes of another sign. */
  lemma {:induction false} ExcludeSignMembers(modes: seq<real>, dir: int, m: real)
    ensures m in ExcludeSign(modes, dir) <==> m in modes && Sign(m) != dir
  {
    if modes != [] {
      ExcludeSignMembers(modes[1..], dir, m);
      assert modes == [modes[0]] + modes[1..];
    }
  }

  /** ExcludeSignKeepZero keeps exactly the modes of another sign and zero. */
  lemma {:induction false} KeepZeroMembers(modes: seq<real>, dir: int, m: real)
    ensures m in ExcludeSignKeepZero(modes, dir) <==> m in modes && (Sign(m) != dir || m == 0.0)
  {
    if modes != [] {
      KeepZeroMembers(modes[1..], dir, m);
      assert modes == [modes[0]] + modes[1..];
    }
  }

  /** Against a real direction the two filters are the same list: the zero
   *  mode never has that direction's sign anyway. */
  lemma {:induction false} FiltersAgree(modes: seq<real>, dir: int)
    requires dir != 0
    ensures ExcludeSign(modes, dir) == ExcludeSignKeepZero(modes, dir)
  {
    if modes != [] {
      FiltersAgree(modes[1..], dir);
    }
  }

  /** After upward moves the candidates are zero and the three downward
   *  modes, whichever filter is used. */
  lemma CandidatesAfterUp()
    ensures ExcludeSignKeepZero(TREND_MODES, 1) == ExcludeSign(TREND_MODES, 1) == [-0.014, -0.01, -0.006, 0.0]
  {
    FiltersAgree(TREND_MODES, 1);
    assert ExcludeSign([0.014], 1) == [];
    assert ExcludeSign([0.01, 0.014], 1) == [];
    assert ExcludeSign([0.006, 0.01, 0.014], 1) == [];
    assert ExcludeSign([0.0, 0.006, 0.01, 0.014], 1) == [0.0];
    assert ExcludeSign([-0.006, 0.0, 0.006, 0.01, 0.014], 1) == [-0.006, 0.0];
    assert ExcludeSign([-0.01, -0.006, 0.0, 0.006, 0.01, 0.014], 1) == [-0.01, -0.006, 0.0];
  }

  /** After downward moves the candidates are zero and the three upward
   *  modes, whichever filter is used. */
  lemma CandidatesAfterDown()
    ensures ExcludeSignKeepZero(TREND_MODES, -1) == ExcludeSign(TREND_MODES, -1) == [0.0, 0.006, 0.01, 0.014]
  {
    FiltersAgree(TREND_MODES, -1);
    assert ExcludeSign([0.014], -1) == [0.014];
    assert ExcludeSign([0.01, 0.014], -1) == [0.01, 0.014];
    assert ExcludeSign([0.006, 0.01, 0.014], -1) == [0.006, 0.01, 0.014];
    assert ExcludeSign([0.0, 0.006, 0.01, 0.014], -1) == [0.0, 0.006, 0.01, 0.014];
    assert ExcludeSign([-0.006, 0.0, 0.006, 0.01, 0.014], -1) == [0.0, 0.006, 0.01, 0.014];
    assert ExcludeSign([-0.01, -0.006, 0.0, 0.006, 0.01, 0.014], -1) == [0.0, 0.006, 0.01, 0.014];
  }

  /** Against either direction both filters leave four candidates: zero and
   *  the three modes of the opposite sign. */
  lemma OppositeCandidates(dir: int)
    requires dir == -1 || dir == 1
    ensures ExcludeSignKeepZero(TREND_MODES, dir) == ExcludeSign(TREND_MODES, dir)
    ensures |ExcludeSign(TREND_MODES, dir)| == 4 && 0.0 in ExcludeSign(TREND_MODES, dir)
  {
    if dir == 1 {
      CandidatesAfterUp();
    } else {
      CandidatesAfterDown();
    }
  }

  const DOWN_OR_FLAT: seq<real> := [-0.014, -0.01, -0.006, 0.0]
  const UP_OR_FLAT: seq<real> := [0.0, 0.006, 0.01, 0.014]

  /** The modes pickTrendBias chooses from: after two moves the same way it
   *  must turn or pause; after one move it does so with probability 0.45
   *  (`skipDraw` is that draw); otherwise any mode. */
  function Candidates(streak: int, lastDirection: int, skipDraw: real): (r: seq<real>)
    requires lastDirection == -1 || lastDirection == 0 || lastDirection == 1
    ensures r == TREND_MODES || r == DOWN_OR_FLAT || r == UP_OR_FLAT
    ensures lastDirection == 1 && (streak >= 2 || skipDraw < 0.45) ==> r == DOWN_OR_FLAT
    ensures lastDirection == -1 && (streak >= 2 || skipDraw < 0.45) ==> r == UP_OR_FLAT
    ensures lastDirection == 0 || (streak < 2 && skipDraw >= 0.45) ==> r == TREND_MODES
  {
    if streak >= 2 && lastDirection != 0 then
      CandidatesAfterUp();
      CandidatesAfterDown();
      ExcludeSign(TREND_MODES, lastDirection)
    else if lastDirection != 0 && skipDraw < 0.45 then
      CandidatesAfterUp();
      CandidatesAfterDown();
      ExcludeSignKeepZero(TREND_MODES, lastDirection)
    else TREND_MODES
  }

  /** Every candidate is a trend mode, and after a streak of two every
   *  candidate breaks it. */
  lemma CandidatesBreakStreaks(streak: int, lastDirection: int, skipDraw: real, m: real)
    requires lastDirection == -1 || lastDirection == 0 || lastDirection == 1
    requires m in Candidates(streak, lastDirection, skipDraw)
    ensures m in TREND_MODES
    ensures streak >= 2 && lastDirection != 0 ==> Sign(m) != lastDirection
  {
    CandidateSigns(Candidates(streak, lastDirection, skipDraw), m);
  }

  /** A member of one of the three candidate lists is a trend mode, never
   *  upward in the down-or-flat list and never downward in the
   *  up-or-flat one. */
  lemma CandidateSigns(c: seq<real>, m: real)
    requires c == TREND_MODES || c == DOWN_OR_FLAT || c == UP_OR_FLAT
    requires m in c
    ensures m in TREND_MODES
    ensures c == DOWN_OR_FLAT ==> m <= 0.0
    ensures c == UP_OR_FLAT ==> m >= 0.0
  {
    var i :| 0 <= i < |c| && c[i] == m;
    if c == DOWN_OR_FLAT {
      assert TREND_MODES[i] == m;
    } else if c == UP_OR_FLAT {
      assert TREND_MODES[i + 3] == m;
    }
  }

  /** Math.floor(r * n): a valid index for a draw in [0, 1). */
  function PickIndex(r: real, n: nat): (i: nat)
    requires InUnit(r) && n > 0
    ensures i < n
  {
    var k := (r * n as real).Floor;
    assert 0.0 <= r * n as real < n as real;
    k
  }

  /** The streak after a pick: a repeat of a real direction extends it, a
   *  new direction starts it at one, a flat pick resets it. */
  function NextStreak(streak: int, lastDirection: int, next: real): (s: int)
    ensures Sign(next) == 0 ==> s == 0
    ensures Sign(next) != 0 && Sign(next) != lastDirection ==> s == 1
    ensures Sign(next) != 0 && Sign(next) == lastDirection ==> s == streak + 1
  {
    var dir := Sign(next);
    if dir != 0 && dir == lastDirection then streak + 1
    else if dir != 0 then 1
    else 0
  }

  /** Streak bookkeeping: no streak exactly when there is no direction, and
   *  never more than two moves the same way. */
  predicate StreakOk(streak: int, lastDirection: int) {
    && (lastDirection == -1 || lastDirection == 0 || lastDirection == 1)
    && 0 <= streak <= 2
    && (streak == 0 <==> lastDirection == 0)
  }

  /** A pick from the candidates keeps the streak bookkeeping. */
  lemma PickKeepsStreak(streak: int, lastDirection: int, skipDraw: real, pickDraw: real)
    requires StreakOk(streak, lastDirection) && InUnit(pickDraw)
    ensures var c := Candidates(streak, lastDirection, skipDraw);
      var next := c[PickIndex(pickDraw, |c|)];
      StreakOk(NextStreak(streak, lastDirection, next), Sign(next))
  {
    var c := Candidates(streak, lastDirection, skipDraw);
    var next := c[PickIndex(pickDraw, |c|)];
    CandidatesBreakStreaks(streak, lastDirection, skipDraw, next);
  }

  /** The bias pickTrendBias returns: the candidate the pick draw lands
   *  on. It is a trend mode, it breaks a streak of two, and the streak
   *  bookkeeping after it still holds. */
  function PickedBias(streak: int, lastDirection: int, skipDraw: real, pickDraw: real): (b: real)
    requires StreakOk(streak, lastDirection) && InUnit(pickDraw)
    ensures b in TREND_MODES
    ensures streak >= 2 && lastDirection != 0 ==> Sign(b) != lastDirection
    ensures StreakOk(NextStreak(streak, lastDirection, b), Sign(b))
  {
    var c := Candidates(streak, lastDirection, skipDraw);
    var b := c[PickIndex(pickDraw, |c|)];
    CandidatesBreakStreaks(streak, lastDirection, skipDraw, b);
    PickKeepsStreak(streak, lastDirection, skipDraw, pickDraw);
    b
  }

  /** ---------- Price step ---------- */

  /** The Math.random() draws of one accepted simulation tick, in the order
   *  the source makes them. */
  datatype TickDraws = TickDraws(
    refresh: real,    // early trend change, taken with probability 0.08
    skip: real,       // pickTrendBias: 0.45 chance to avoid the last direction
    pick: real,       // pickTrendBias: which candidate
    duration: real,   // how many ticks the new trend lasts
    noise: real,
    shockRoll: real,  // a shock with probability 0.1
    coin: real,       // the shock's direction when the trend is flat
    shockSide: real,  // the shock follows the trend with probability 0.65
    shockSize: real)

  predicate ValidTickDraws(d: TickDraws) {
    && InUnit(d.refresh) && InUnit(d.skip) && InUnit(d.pick) && InUnit(d.duration)
    && InUnit(d.noise) && InUnit(d.shockRoll) && InUnit(d.coin) && InUnit(d.shockSide) && InUnit(d.shockSize)
  }

  /** The shock of a tick: none nine times in ten, otherwise 4% to 17% in
   *  the trend's direction with probability 0.65 (a coin decides the
   *  direction of a flat trend). */
  function Shock(bias: real, d: TickDraws): (s: real)
    requires ValidTickDraws(d)
    ensures d.shockRoll >= 0.1 ==> s == 0.0
    ensures d.shockRoll < 0.1 ==>
      && (if s >= 0.0 then s else -s) == 0.04 + d.shockSize * 0.13
      && 0.04 <= (if s >= 0.0 then s else -s) < 0.17
    ensures d.shockRoll < 0.1 && bias > 0.0 ==> (s > 0.0 <==> d.shockSide < 0.65)
    ensures d.shockRoll < 0.1 && bias < 0.0 ==> (s < 0.0 <==> d.shockSide < 0.65)
    ensures d.shockRoll < 0.1 && bias == 0.0 ==> (s > 0.0 <==> (d.coin > 0.5 <==> d.shockSide < 0.65))
  {
    var directional := if bias == 0.0 then (if d.coin > 0.5 then 1.0 else -1.0) else Sign(bias) as real;
    var shockSign := if d.shockSide < 0.65 then directional else -directional;
    if d.shockRoll < 0.1 then shockSign * (0.04 + d.shockSize * 0.13) else 0.0
  }

  /** The next market cap: the previous one moved by trend, noise, a pull
   *  towards the anchor and the shock, but never below the floor. */
  function NextCap(previous: real, anchor: real, bias: real, d: TickDraws): (next: real)
    requires anchor > 0.0 && ValidTickDraws(d)
    ensures next >= PRICE_FLOOR
  {
    var noise := (d.noise - 0.5) * 0.044;
    var towardAnchor := (anchor - previous) / anchor * 0.0038;
    Max(PRICE_FLOOR, previous * (1.0 + bias + noise + towardAnchor + Shock(bias, d)))
  }

  /** A quiet tick (neutral noise, no shock) at the anchor moves the cap
   *  the way the trend points: up for a rising trend, not at all for a
   *  flat one, and down (or onto the floor) for a falling one. */
  lemma QuietTickFollowsTrend(previous: real, bias: real, d: TickDraws)
    requires previous >= PRICE_FLOOR && ValidTickDraws(d) && d.noise == 0.5 && d.shockRoll >= 0.1
    ensures bias == 0.0 ==> NextCap(previous, previous, bias, d) == previous
    ensures bias > 0.0 ==> NextCap(previous, previous, bias, d) > previous
    ensures bias < 0.0 ==>
      NextCap(previous, previous, bias, d) < previous || NextCap(previous, previous, bias, d) == PRICE_FLOOR
  {
    assert Shock(bias, d) == 0.0;
    assert (previous - previous) / previous * 0.0038 == 0.0;
    var moved := previous * (1.0 + bias);
    assert moved == previous + previous * bias;
    PositiveFactor(previous, bias);
    PositiveFactor(previous, -bias);
    assert NextCap(previous, previous, bias, d) == Max(PRICE_FLOOR, moved);
  }

  /** The slow-moving anchor: 99.5% of itself and 0.5% of the new cap, so
   *  it always lies between the two. */
  function NextAnchor(anchor: real, next: real): (a: real)
    ensures Min(anchor, next) <= a <= Max(anchor, next)
    ensures anchor == next ==> a == anchor
  {
    anchor * 0.995 + next * 0.005
  }

  /** ---------- Candles ---------- */

  /** A candle's high and low bound its open and close. */
  predicate Sane(c: Candle) {
    c.low <= c.open <= c.high && c.low <= c.close <= c.high
  }

  /** The candle of one tick: it opens at the previous close and closes at
   *  the new cap, with exactly those two as its range. */
  function NewCandle(previousClose: real, next: real): (c: Candle)
    ensures Sane(c) && c.open == previousClose && c.close == next
    ensures c.high == Max(previousClose, next) && c.low == Min(previousClose, next)
  {
    Candle(previousClose, Max(previousClose, next), Min(previousClose, next), next)
  }

  /** slice(-n): the last n elements, or all of them; slice(-0) is
   *  slice(0), the whole sequence. */
  function TakeLast<T>(s: seq<T>, n: nat): (r: seq<T>)
    ensures n > 0 ==> |r| == if |s| < n then |s| else n
    ensures n == 0 ==> r == s
    ensures r == s[|s| - |r|..]
  {
    if n == 0 || |s| <= n then s else s[|s| - n..]
  }

  /** Each candle opens where the one before it closed. */
  predicate Chained(candles: seq<Candle>) {
    forall i :: 0 < i < |candles| ==> candles[i].open == candles[i - 1].close
  }

  /** Appends the tick's candle (opened at the last close) and keeps the
   *  last 320. */
  function AppendCandle(candles: seq<Candle>, next: real): (r: seq<Candle>)
    requires candles != []
    ensures |r| == if |candles| < MAX_CANDLE_HISTORY then |candles| + 1 else MAX_CANDLE_HISTORY
    ensures r[|r| - 1] == NewCandle(candles[|candles| - 1].close, next)
    ensures |candles| < MAX_CANDLE_HISTORY ==> r[..|r| - 1] == candles
    ensures |candles| >= MAX_CANDLE_HISTORY ==> r[..|r| - 1] == candles[|candles| + 1 - MAX_CANDLE_HISTORY..]
  {
    var all := candles + [NewCandle(candles[|candles| - 1].close, next)];
    TakeLast(all, MAX_CANDLE_HISTORY as nat)
  }

  /** Appending keeps the history chained, sane and within the floor. */
  lemma AppendCandleKeepsChain(candles: seq<Candle>, next: real)
    requires candles != [] && Chained(candles)
    requires forall i :: 0 <= i < |candles| ==> Sane(candles[i]) && candles[i].close >= PRICE_FLOOR
    requires next >= PRICE_FLOOR
    ensures var r := AppendCandle(candles, next);
      && Chained(r) && r[|r| - 1].close == next
      && forall i :: 0 <= i < |r| ==> Sane(r[i]) && r[i].close >= PRICE_FLOOR
  {
    var all := candles + [NewCandle(candles[|candles| - 1].close, next)];
    assert Chained(all) by {
      forall i | 0 < i < |all|
        ensures all[i].open == all[i - 1].close
      {
        if i < |candles| {
          assert all[i] == candles[i] && all[i - 1] == candles[i - 1];
        }
      }
    }
    var r := AppendCandle(candles, next);
    ChainedSuffix(all, |all| - |r|);
  }

  /** Any suffix of a chained history is chained. */
  lemma ChainedSuffix(s: seq<Candle>, k: nat)
    requires Chained(s) && k <= |s|
    ensures Chained(s[k..])
  {
    forall i | 0 < i < |s| - k
      ensures s[k..][i].open == s[k..][i - 1].close
    {
      assert s[k..][i] == s[k + i] && s[k..][i - 1] == s[k + i - 1];
    }
  }

  /** ---------- Chart window and inputs ---------- */

  /** Where the visible window starts: the last 56 candles moved back by
   *  the offset, which is first limited to the candles out of view. */
  function VisibleStart(n: nat, offset: nat): (start: nat)
    ensures start <= n
    ensures n >= VISIBLE_CANDLES ==> start + VISIBLE_CANDLES <= n
    ensures n >= VISIBLE_CANDLES && offset <= n - VISIBLE_CANDLES ==> start == n - VISIBLE_CANDLES - offset
    ensures n >= VISIBLE_CANDLES && offset >= n - VISIBLE_CANDLES ==> start == 0
    ensures n < VISIBLE_CANDLES ==> start == 0
  {
    var maxOffset := IntMax(n - VISIBLE_CANDLES, 0);
    var safeOffset := IntMin(offset, maxOffset);
    IntMax(n - VISIBLE_CANDLES - safeOffset, 0)
  }

  /** The candles drawn: 56 consecutive ones (all of them when there are
   *  fewer); with no offset, the newest. */
  function VisibleCandles(candles: seq<Candle>, offset: nat): (r: seq<Candle>)
    ensures |r| == if |candles| < VISIBLE_CANDLES then |candles| else VISIBLE_CANDLES
    ensures VisibleStart(|candles|, offset) + |r| <= |candles|
    ensures r == candles[VisibleStart(|candles|, offset)..VisibleStart(|candles|, offset) + |r|]
    ensures offset == 0 ==> r == candles[|candles| - |r|..]
  {
    var start := VisibleStart(|candles|, offset);
    var end := IntMin(start + VISIBLE_CANDLES, |candles|);
    candles[start..end]
  }

  /** The horizontal drag: ten pixels a candle, clamped between the newest
   *  view and the oldest. */
  function DragOffset(startOffset: int, deltaX: real, n: nat): (offset: nat)
    ensures offset <= IntMax(n - VISIBLE_CANDLES, 0)
    ensures 0 <= startOffset + Round(deltaX / 10.0) <= IntMax(n - VISIBLE_CANDLES, 0) ==>
      offset == startOffset + Round(deltaX / 10.0)
  {
    var maxOffset := IntMax(n - VISIBLE_CANDLES, 0);
    IntMax(0, IntMin(startOffset + Round(deltaX / 10.0), maxOffset))
  }

  /** The vertical drag: six pixels a unit, within 30 either way. */
  function DragVerticalOffset(startOffset: real, deltaY: real): (offset: real)
    ensures -30.0 <= offset <= 30.0
    ensures -30.0 <= startOffset + deltaY / 6.0 <= 30.0 ==> offset == startOffset + deltaY / 6.0
  {
    Max(-30.0, Min(startOffset + deltaY / 6.0, 30.0))
  }

  /** The tick's follow rule over a history of n candles: a chart at the
   *  newest view stays there; a chart moved back goes one candle further
   *  back, so that the same candles stay in view, up to one more than the
   *  candles out of view. */
  function FollowOffset(offset: int, n: nat): (r: nat)
    ensures offset <= 0 ==> r == 0
    ensures r <= IntMax(n + 1 - VISIBLE_CANDLES, 0)
    ensures offset > 0 && offset <= n - VISIBLE_CANDLES ==> r == offset + 1
  {
    if offset <= 0 then 0 else IntMin(offset + 1, IntMax(n + 1 - VISIBLE_CANDLES, 0))
  }

  /** Following a new candle keeps the view still: a chart moved back (and
   *  not to the oldest view) shows the same candles after the tick as
   *  before it. */
  lemma FollowKeepsView(candles: seq<Candle>, offset: nat, next: real)
    requires candles != [] && 0 < offset
    requires offset + 1 <= |AppendCandle(candles, next)| - VISIBLE_CANDLES
    ensures VisibleCandles(AppendCandle(candles, next), FollowOffset(offset, |candles|)) == VisibleCandles(candles, offset)
  {
    assert FollowOffset(offset, |candles|) == offset + 1;
    ShiftKeepsView(candles, offset, next);
  }

  /** One candle further back in the extended history is the same view. */
  lemma ShiftKeepsView(candles: seq<Candle>, offset: nat, next: real)
    requires candles != [] && offset + 1 + VISIBLE_CANDLES <= |AppendCandle(candles, next)|
    ensures VisibleCandles(AppendCandle(candles, next), offset + 1) == VisibleCandles(candles, offset)
  {
    AppendWindow(candles, next, offset);
    WindowAt(candles, offset);
    WindowAt(AppendCandle(candles, next), offset + 1);
  }

  /** The 56 candles ending `offset` + 1 before the newest of the extended
   *  history are the 56 ending `offset` before the newest of the old
   *  one. */
  lemma AppendWindow(candles: seq<Candle>, next: real, offset: nat)
    requires candles != [] && offset + 1 + VISIBLE_CANDLES <= |AppendCandle(candles, next)|
    ensures var after := AppendCandle(candles, next);
      && offset + VISIBLE_CANDLES <= |candles|
      && after[|after| - VISIBLE_CANDLES - (offset + 1)..|after| - (offset + 1)]
         == candles[|candles| - VISIBLE_CANDLES - offset..|candles| - offset]
  {
    var after := AppendCandle(candles, next);
    var shift := |candles| + 1 - |after|;
    var start := |after| - VISIBLE_CANDLES - (offset + 1);
    forall j | start <= j < start + VISIBLE_CANDLES
      ensures after[j] == candles[j + shift]
    {
      AppendShift(candles, next, j);
    }
    SameSlices(after, candles, start, shift, VISIBLE_CANDLES);
  }

  /** Two slices agree when their elements agree one by one. */
  lemma SameSlices<T>(a: seq<T>, b: seq<T>, start: nat, shift: nat, len: nat)
    requires start + len <= |a| && start + shift + len <= |b|
    requires forall j :: start <= j < start + len ==> a[j] == b[j + shift]
    ensures a[start..start + len] == b[start + shift..start + shift + len]
  {
    var x := a[start..start + len];
    var y := b[start + shift..start + shift + len];
    forall i | 0 <= i < len
      ensures x[i] == y[i]
    {
      assert a[start + i] == b[start + i + shift];
    }
  }

  /** A view within the candles out of view is the 56 candles ending
   *  `offset` before the newest. */
  lemma WindowAt(candles: seq<Candle>, offset: nat)
    requires offset + VISIBLE_CANDLES <= |candles|
    ensures VisibleCandles(candles, offset) == candles[|candles| - VISIBLE_CANDLES - offset..|candles| - offset]
  {
  }

  /** Every candle of the extended history but the new one is an old
   *  candle, shifted by the ones dropped from the front. */
  lemma AppendShift(candles: seq<Candle>, next: real, j: nat)
    requires candles != [] && j < |AppendCandle(candles, next)| - 1
    ensures var after := AppendCandle(candles, next);
      j + |candles| + 1 - |after| < |candles| && after[j] == candles[j + |candles| + 1 - |after|]
  {
    var after := AppendCandle(candles, next);
    assert after[..|after| - 1][j] == after[j];
  }

  /** The largest trade the input accepts: the balance (at least 10) in
   *  whole cents. */
  function MaxTradeAmount(balance: real): (m: real)
    ensures IsCents(m)
    ensures m >= MIN_COLLATERAL
    ensures Max(balance, MIN_COLLATERAL) - 0.005 < m <= Max(balance, MIN_COLLATERAL) + 0.005
    ensures balance <= MIN_COLLATERAL ==> m == MIN_COLLATERAL
    ensures balance >= MIN_COLLATERAL && IsCents(balance) ==> m == balance
  {
    RoundCentsFixes(Max(balance, MIN_COLLATERAL));
    RoundCentsIsCents(Max(balance, MIN_COLLATERAL));
    RoundCentsFixes(MIN_COLLATERAL);
    RoundCentsMonotone(MIN_COLLATERAL, Max(balance, MIN_COLLATERAL));
    RoundCents(Max(balance, MIN_COLLATERAL))
  }

  /** The trade-size input: a non-number (None) becomes 0, negatives 0,
   *  amounts above the maximum the maximum, anything else its cents. */
  function TradeAmountInput(raw: Option<real>, balance: real): (amount: real)
    ensures raw.None? ==> amount == 0.0
    ensures raw.Some? && raw.value <= 0.0 ==> amount == 0.0
    ensures raw.Some? && 0.0 <= raw.value <= MaxTradeAmount(balance) && IsCents(raw.value) ==> amount == raw.value
    ensures 0.0 <= amount <= MaxTradeAmount(balance)
    ensures IsCents(amount)
    ensures raw.Some? && raw.value > MaxTradeAmount(balance) ==> amount == MaxTradeAmount(balance)
    ensures raw.Some? && 0.0 <= raw.value <= MaxTradeAmount(balance) ==> raw.value - 0.005 < amount <= raw.value + 0.005
  {
    match raw
    case None =>
      assert (0.0 * 100.0).Floor == 0;
      0.0
    case Some(v) =>
      var normalized := Max(0.0, v);
      var m := MaxTradeAmount(balance);
      if normalized > m then m
      else
        RoundCentsIsCents(normalized);
        RoundCentsMonotone(normalized, m);
        RoundCentsFixes(m);
        RoundCentsMonotone(0.0, normalized);
        RoundCentsFixes(0.0);
        RoundCentsFixes(normalized);
        RoundCents(normalized)
  }
}
