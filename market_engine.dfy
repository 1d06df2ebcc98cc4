/** The memecoin futures simulator's state and its handlers
 *  (src/pages/MemecoinSimulatorPage.tsx): the burn-in history generator,
 *  the account with at most one leveraged position, the once-a-second price
 *  tick with its anti-streak trend picker, the liquidation check and the
 *  chart drag. React state and refs are the fields of class Market. */
module MarketEngine {
  import opened Basics
  import opened MarketMath

  /** The Math.random() draws of one burn-in candle: a new trend's bias and
   *  length (used only when the last trend ran out), the noise, and the
   *  shock's chance and size. */
  datatype HistoryDraws = HistoryDraws(bias: real, duration: real, noise: real, shockRoll: real, shockSize: real)

  predicate ValidHistoryDraws(d: HistoryDraws) {
    InUnit(d.bias) && InUnit(d.duration) && InUnit(d.noise) && InUnit(d.shockRoll) && InUnit(d.shockSize)
  }

  /** The close of one burn-in candle: the current cap moved by the trend,
   *  noise, a pull back towards the seed and a rare shock, but never below
   *  the floor. */
  function HistoryClose(current: real, seed: real, bias: real, d: HistoryDraws): (close: real)
    requires seed > 0.0
    ensures close >= PRICE_FLOOR
  {
    var noise := (d.noise - 0.5) * 0.036;
    var meanReversion := (seed - current) / seed * 0.004;
    var shock := if d.shockRoll < 0.09 then (d.shockSize - 0.5) * 0.18 else 0.0;
    Max(PRICE_FLOOR, current * (1.0 + bias + noise + meanReversion + shock))
  }

  /** The burn-in generator's state after some candles: the candles so far,
   *  the current cap, and the trend's bias and remaining candles. */
  datatype BurnIn = BurnIn(candles: seq<Candle>, current: real, bias: real, ticksLeft: int)

  /** One burn-in candle after `b`. A spent trend is replaced by a bias of
   *  (draw - 0.5) * 0.02 lasting 3 to 10 candles; the candle uses one of
   *  them, closes at `HistoryClose` of the current cap and spans its open
   *  and its close. */
  function PretendStep(b: BurnIn, seed: real, d: HistoryDraws): BurnIn
    requires seed > 0.0 && ValidHistoryDraws(d)
  {
    var refresh := b.ticksLeft <= 0;
    var bias := if refresh then (d.bias - 0.5) * 0.02 else b.bias;
    var ticksLeft := (if refresh then 3 + PickIndex(d.duration, 8) else b.ticksLeft) - 1;
    var close := HistoryClose(b.current, seed, bias, d);
    BurnIn(b.candles + [NewCandle(b.current, close)], close, bias, ticksLeft)
  }

  /** The first `n` burn-in candles from `seed`, the i-th with draws
   *  `draw(i)`, starting with no trend. */
  function PretendHistory(n: nat, seed: real, draw: nat -> HistoryDraws): BurnIn
    requires seed > 0.0
    requires forall i :: ValidHistoryDraws(draw(i))
  {
    if n == 0 then BurnIn([], seed, 0.0, 0)
    else PretendStep(PretendHistory(n - 1, seed, draw), seed, draw(n - 1))
  }

  /** The burn-in history has `n` candles: the first opens at the seed, each
   *  opens at the previous close, the last closes at the current cap, and
   *  every candle is sane and closes at or above the floor. */
  lemma {:induction false} PretendHistoryShape(n: nat, seed: real, draw: nat -> HistoryDraws)
    requires seed > 0.0
    requires forall i :: ValidHistoryDraws(draw(i))
    ensures var h := PretendHistory(n, seed, draw);
      && |h.candles| == n
      && (n == 0 ==> h.current == seed)
      && (n > 0 ==> h.candles[0].open == seed && h.candles[n - 1].close == h.current)
      && Chained(h.candles)
      && forall i :: 0 <= i < n ==> Sane(h.candles[i]) && h.candles[i].close >= PRICE_FLOOR
  {
    if n > 0 {
      PretendHistoryShape(n - 1, seed, draw);
      var prev := PretendHistory(n - 1, seed, draw);
      var h := PretendHistory(n, seed, draw);
      assert h.candles == prev.candles + [NewCandle(prev.current, h.current)];
    }
  }

  /** generatePretendHistory: `count` chained candles starting at `seed`,
   *  each the range between its open and its close. `draw(i)` are the draws
   *  of the i-th candle. */
  method GeneratePretendHistory(count: nat, seed: real, draw: nat -> HistoryDraws) returns (history: seq<Candle>)
    requires seed > 0.0
    requires forall i :: ValidHistoryDraws(draw(i))
    ensures history == PretendHistory(count, seed, draw).candles
    ensures |history| == count
    ensures count > 0 ==> history[0].open == seed
    ensures Chained(history)
    ensures forall i :: 0 <= i < |history| ==> Sane(history[i]) && history[i].close >= PRICE_FLOOR
  {
    var current := seed;
    var trendBias := 0.0;
    var trendTicks := 0;
    history := [];
    var i := 0;
    while i < count
      invariant 0 <= i <= count
      invariant PretendHistory(i, seed, draw) == BurnIn(history, current, trendBias, trendTicks)
    {
      var d := draw(i);
      if trendTicks <= 0 {
        trendBias := (d.bias - 0.5) * 0.02;
        trendTicks := 3 + PickIndex(d.duration, 8);
      }
      trendTicks := trendTicks - 1;
      var open := current;
      // The source's inner loop runs exactly once.
      current := HistoryClose(current, seed, trendBias, d);
      var high := Max(open, current);
      var low := Min(open, current);
      history := history + [Candle(open, high, low, current)];
      i := i + 1;
    }
    PretendHistoryShape(count, seed, draw);
  }

  /** The trend refs: the current bias, the ticks it has left, and the
   *  streak of trends in the same direction. */
  datatype Trend = Trend(bias: real, ticksLeft: int, streak: int, lastDirection: int)

  /** The trend after the trend part of a tick. A spent trend, or a live
   *  one when the refresh draw falls below 0.08, is replaced: the new bias
   *  is drawn from the candidates, the streak bookkeeping follows it and
   *  the new trend lasts 4 to 10 ticks. Then one tick of the trend is
   *  used. */
  function NextTrend(t: Trend, d: TickDraws): (r: Trend)
    requires StreakOk(t.streak, t.lastDirection) && ValidTickDraws(d)
    ensures StreakOk(r.streak, r.lastDirection)
    ensures var refreshed := t.ticksLeft <= 0 || d.refresh < 0.08;
      && (refreshed ==>
           && r.ticksLeft == 3 + PickIndex(d.duration, 7) && 3 <= r.ticksLeft <= 9
           && r.bias == PickedBias(t.streak, t.lastDirection, d.skip, d.pick)
           && r.bias in TREND_MODES && r.lastDirection == Sign(r.bias)
           && r.streak == NextStreak(t.streak, t.lastDirection, r.bias)
           && (t.streak >= 2 && t.lastDirection != 0 ==> Sign(r.bias) != t.lastDirection))
      && (!refreshed ==> r == t.(ticksLeft := t.ticksLeft - 1))
  {
    if t.ticksLeft <= 0 || d.refresh < 0.08 then
      var bias := PickedBias(t.streak, t.lastDirection, d.skip, d.pick);
      Trend(bias, 3 + PickIndex(d.duration, 7), NextStreak(t.streak, t.lastDirection, bias), Sign(bias))
    else
      t.(ticksLeft := t.ticksLeft - 1)
  }

  /** A refresh that picked `bias` and updated the streak refs to
   *  `streak` and `direction`, followed by the tick's decrement, is the
   *  next trend. */
  lemma RefreshIsNextTrend(t: Trend, d: TickDraws, bias: real, streak: int, direction: int)
    requires StreakOk(t.streak, t.lastDirection) && ValidTickDraws(d)
    requires t.ticksLeft <= 0 || d.refresh < 0.08
    requires bias == PickedBias(t.streak, t.lastDirection, d.skip, d.pick)
    requires streak == NextStreak(t.streak, t.lastDirection, bias) && direction == Sign(bias)
    ensures NextTrend(t, d) == Trend(bias, 4 + PickIndex(d.duration, 7) - 1, streak, direction)
  {
  }

  /** The chart's pan: candles back from the newest, and the vertical shift. */
  datatype ChartView = ChartView(offset: nat, vertical: real)

  /** Where a chart drag started: pointer position and the pan at that time. */
  datatype DragStart = DragStart(x: real, y: real, offset: nat, vertical: real)

  /** A history the chart can show: one to 320 chained, sane candles, none
   *  closing below the floor. */
  predicate GoodHistory(candles: seq<Candle>) {
    && 0 < |candles| <= MAX_CANDLE_HISTORY
    && Chained(candles)
    && forall i :: 0 <= i < |candles| ==> Sane(candles[i]) && candles[i].close >= PRICE_FLOOR
  }

  /** Extending a good history keeps it good, ends it at the new close and
   *  never shortens it. */
  lemma AppendKeepsGood(candles: seq<Candle>, next: real)
    requires GoodHistory(candles) && next >= PRICE_FLOOR
    ensures var r := AppendCandle(candles, next);
      GoodHistory(r) && r[|r| - 1].close == next && |r| >= |candles|
  {
    AppendCandleKeepsChain(candles, next);
  }

  /** The price part of the page's state: the market cap, the anchor the
   *  price is pulled towards, and the candle history. */
  datatype Quote = Quote(cap: real, anchor: real, candles: seq<Candle>)

  /** Cap and anchor above the floor, a good history ending at the cap. */
  predicate GoodQuote(q: Quote) {
    && q.cap >= PRICE_FLOOR && q.anchor >= PRICE_FLOOR
    && GoodHistory(q.candles) && q.candles[|q.candles| - 1].close == q.cap
  }

  /** The quote after the cap moves to `next`: the anchor follows it a
   *  little and the history gains the tick's candle. */
  function Moved(q: Quote, next: real): (r: Quote)
    requires GoodQuote(q) && next >= PRICE_FLOOR
    ensures GoodQuote(r) && r.cap == next
    ensures |r.candles| >= |q.candles|
  {
    AppendKeepsGood(q.candles, next);
    Quote(next, NextAnchor(q.anchor, next), AppendCandle(q.candles, next))
  }

  /** The balance is never negative and an open position holds at least
   *  the minimum stake at a real price; the cap and the anchor respect the
   *  floor; the history is good and ends at the current cap; the trend
   *  counter lies in [0, 9] and the streak bookkeeping holds; the pan is
   *  within its bounds. */
  ghost predicate Consistent(balance: real, tradeAmount: real, position: Option<Position>, quote: Quote, trend: Trend, chart: ChartView) {
    && balance >= 0.0 && tradeAmount >= 0.0
    && (position.Some? ==> position.value.entry >= PRICE_FLOOR && position.value.collateral >= MIN_COLLATERAL)
    && GoodQuote(quote)
    && 0 <= trend.ticksLeft <= 9 && StreakOk(trend.streak, trend.lastDirection)
    && chart.offset <= IntMax(|quote.candles| + 1 - VISIBLE_CANDLES, 0) && -30.0 <= chart.vertical <= 30.0
  }

  /** A new trend with a counter in [0, 9] and consistent streak
   *  bookkeeping leaves the state consistent. */
  lemma TrendKeepsConsistent(balance: real, tradeAmount: real, position: Option<Position>, quote: Quote, trend: Trend, chart: ChartView, trend': Trend)
    requires Consistent(balance, tradeAmount, position, quote, trend, chart)
    requires 0 <= trend'.ticksLeft <= 9 && StreakOk(trend'.streak, trend'.lastDirection)
    ensures Consistent(balance, tradeAmount, position, quote, trend', chart)
  {
  }

  /** A price move leaves the rest of the state consistent. */
  lemma MoveKeepsConsistent(balance: real, tradeAmount: real, position: Option<Position>, quote: Quote, trend: Trend, chart: ChartView, next: real)
    requires Consistent(balance, tradeAmount, position, quote, trend, chart) && next >= PRICE_FLOOR
    ensures Consistent(balance, tradeAmount, position, Moved(quote, next), trend, chart)
  {
  }

  class Market {
    var balance: real
    var position: Option<Position>
    var tradeAmount: real
    var quote: Quote
    var chart: ChartView
    var drag: DragStart
    var trend: Trend
    var lastTick: real

    /** The page's invariant, Consistent over the current state. */
    ghost predicate Valid()
      reads this
    {
      Consistent(balance, tradeAmount, position, quote, trend, chart)
    }

    /** The page as it loads: $1,000, no position, a 250 trade size and a
     *  fresh 320-candle history from 1,000,000. */
    constructor (draw: nat -> HistoryDraws)
      requires forall i :: ValidHistoryDraws(draw(i))
      ensures Valid()
      ensures balance == STARTING_BALANCE && position.None? && tradeAmount == 250.0
      ensures quote.candles == PretendHistory(MAX_CANDLE_HISTORY as nat, STARTING_MARKET_CAP, draw).candles
      ensures |quote.candles| == MAX_CANDLE_HISTORY && quote.candles[0].open == STARTING_MARKET_CAP
      ensures quote.cap == quote.candles[|quote.candles| - 1].close
      ensures quote.anchor == quote.cap && lastTick == 0.0 && trend == Trend(0.0, 0, 0, 0)
      ensures chart == ChartView(0, 0.0) && drag == DragStart(0.0, 0.0, 0, 0.0)
    {
      var history := GeneratePretendHistory(MAX_CANDLE_HISTORY as nat, STARTING_MARKET_CAP, draw);
      balance := STARTING_BALANCE;
      position := None;
      tradeAmount := 250.0;
      quote := Quote(history[|history| - 1].close, history[|history| - 1].close, history);
      chart := ChartView(0, 0.0);
      drag := DragStart(0.0, 0.0, 0, 0.0);
      trend := Trend(0.0, 0, 0, 0);
      lastTick := 0.0;
    }

    /** openTrade: refused while a position is open or when the stake would
     *  exceed the balance; otherwise the stake moves from the balance into a
     *  position entered at the current cap. */
    method OpenTrade(side: Side) returns (entered: bool)
      requires Valid()
      modifies this`balance, this`position
      ensures Valid()
      ensures entered <==> old(position).None? && old(balance) >= MIN_COLLATERAL
      ensures entered ==>
        var c := Collateral(tradeAmount, old(balance));
        && MIN_COLLATERAL <= c <= old(balance)
        && position == Some(Position(side, quote.cap, c))
        && balance == old(balance) - c
      ensures !entered ==> position == old(position) && balance == old(balance)
    {
      if position.Some? {
        return false;
      }
      var collateral := Collateral(tradeAmount, balance);
      OpenRefusedIffPoor(tradeAmount, balance);
      if collateral > balance || collateral <= 0.0 {
        return false;
      }
      balance := balance - collateral;
      position := Some(Position(side, quote.cap, collateral));
      entered := true;
    }

    /** closeTrade: pays the position's value (never negative) into the
     *  balance and clears the position; without a position nothing
     *  happens. */
    method CloseTrade() returns (payout: real)
      requires Valid()
      modifies this`balance, this`position
      ensures Valid()
      ensures position.None?
      ensures old(position).None? ==> payout == 0.0 && balance == old(balance)
      ensures old(position).Some? ==>
        && payout == Payout(old(position).value, quote.cap)
        && balance == old(balance) + payout
      ensures balance >= old(balance)
    {
      if position.None? {
        return 0.0;
      }
      payout := Payout(position.value, quote.cap);
      balance := balance + payout;
      position := None;
    }

    /** The liquidation effect: a position whose multiple is at or below -1
     *  is cleared and pays nothing. */
    method CheckLiquidation() returns (liquidated: bool)
      requires Valid()
      modifies this`position
      ensures Valid()
      ensures liquidated <==> old(position).Some? && PnlMultiple(old(position), quote.cap) <= -1.0
      ensures liquidated ==> position.None?
      ensures !liquidated ==> position == old(position)
    {
      liquidated := position.Some? && PnlMultiple(position, quote.cap) <= -1.0;
      if liquidated {
        position := None;
      }
    }

    /** pickTrendBias: draws a mode from the candidates and updates the
     *  streak bookkeeping. */
    method PickTrendBias(skipDraw: real, pickDraw: real) returns (bias: real)
      requires StreakOk(trend.streak, trend.lastDirection) && InUnit(pickDraw)
      modifies this`trend
      ensures bias == PickedBias(old(trend.streak), old(trend.lastDirection), skipDraw, pickDraw)
      ensures bias in TREND_MODES
      ensures old(trend.streak) >= 2 && old(trend.lastDirection) != 0 ==> Sign(bias) != old(trend.lastDirection)
      ensures trend.streak == NextStreak(old(trend.streak), old(trend.lastDirection), bias)
      ensures trend.lastDirection == Sign(bias)
      ensures StreakOk(trend.streak, trend.lastDirection)
      ensures trend.bias == old(trend.bias) && trend.ticksLeft == old(trend.ticksLeft)
    {
      var candidates := Candidates(trend.streak, trend.lastDirection, skipDraw);
      bias := candidates[PickIndex(pickDraw, |candidates|)];
      assert bias == PickedBias(trend.streak, trend.lastDirection, skipDraw, pickDraw);
      var direction := Sign(bias);
      var streak := trend.streak;
      if direction != 0 && direction == trend.lastDirection {
        streak := streak + 1;
      } else if direction != 0 {
        streak := 1;
      } else {
        streak := 0;
      }
      trend := trend.(streak := streak, lastDirection := direction);
    }

    /** The trend part of a tick: a spent trend (or, one time in twelve
     *  and a half, a live one) is replaced by a fresh pick lasting 4 to 10
     *  ticks; then one tick of it is used. */
    method AdvanceTrend(d: TickDraws)
      requires Valid() && ValidTickDraws(d)
      modifies this`trend
      ensures Valid()
      ensures trend == NextTrend(old(trend), d)
    {
      ghost var before := trend;
      assert StreakOk(before.streak, before.lastDirection) && 0 <= before.ticksLeft;
      if trend.ticksLeft <= 0 || d.refresh < 0.08 {
        var bias := PickTrendBias(d.skip, d.pick);
        RefreshIsNextTrend(before, d, bias, trend.streak, trend.lastDirection);
        trend := trend.(bias := bias, ticksLeft := 4 + PickIndex(d.duration, 7));
      }
      trend := trend.(ticksLeft := trend.ticksLeft - 1);
      TrendKeepsConsistent(balance, tradeAmount, position, quote, before, chart, trend);
    }

    /** The price part of a tick: the next cap, the anchor pulled towards
     *  it, and the candle history extended to it. */
    method StepPrice(d: TickDraws)
      requires Valid() && ValidTickDraws(d)
      modifies this`quote
      ensures Valid()
      ensures quote.cap == NextCap(old(quote.cap), old(quote.anchor), trend.bias, d)
      ensures quote.anchor == NextAnchor(old(quote.anchor), quote.cap)
      ensures quote.candles == AppendCandle(old(quote.candles), quote.cap)
    {
      var next := NextCap(quote.cap, quote.anchor, trend.bias, d);
      MoveTo(next);
    }

    /** The cap moves to `next`: the anchor follows it a little and the
     *  history gains the tick's candle. */
    method MoveTo(next: real)
      requires Valid() && next >= PRICE_FLOOR
      modifies this`quote
      ensures Valid()
      ensures quote == Moved(old(quote), next)
    {
      MoveKeepsConsistent(balance, tradeAmount, position, quote, trend, chart, next);
      quote := Moved(quote, next);
    }

    /** The interval callback at time `now`: ignored unless a full second
     *  has passed since the last accepted tick; otherwise the trend, the
     *  cap, the anchor and the candles move one step and a chart moved
     *  back follows the new candle. */
    method SimulationTick(now: real, d: TickDraws) returns (accepted: bool)
      requires Valid() && ValidTickDraws(d)
      modifies this`lastTick, this`trend, this`quote, this`chart
      ensures Valid()
      ensures accepted <==> now - old(lastTick) >= SIMULATION_INTERVAL_MS
      ensures !accepted ==>
        && lastTick == old(lastTick) && trend == old(trend) && quote == old(quote) && chart == old(chart)
      ensures accepted ==>
        && lastTick == now
        && chart == old(chart).(offset := FollowOffset(old(chart.offset), |old(quote.candles)|))
        && trend == NextTrend(old(trend), d)
        && quote.cap == NextCap(old(quote.cap), old(quote.anchor), trend.bias, d)
        && quote.anchor == NextAnchor(old(quote.anchor), quote.cap)
        && quote.candles == AppendCandle(old(quote.candles), quote.cap)
        && |quote.candles| == (if |old(quote.candles)| < MAX_CANDLE_HISTORY then |old(quote.candles)| + 1 else MAX_CANDLE_HISTORY)
    {
      if now - lastTick < SIMULATION_INTERVAL_MS {
        return false;
      }
      lastTick := now;
      AdvanceTrend(d);
      var shown := |quote.candles|;
      StepPrice(d);
      FollowChart(shown);
      accepted := true;
    }

    /** The chart's part of a tick, over the history length the tick
     *  measured before its candle was added. */
    method FollowChart(n: nat)
      requires Valid() && n <= |quote.candles|
      modifies this`chart
      ensures Valid()
      ensures chart == old(chart).(offset := FollowOffset(old(chart.offset), n))
    {
      chart := chart.(offset := FollowOffset(chart.offset, n));
    }

    /** resetRun at time `now`: $1,000, no position, a 250 trade size, a
     *  fresh history from 1,000,000, the trend state cleared and the anchor
     *  at the new cap. */
    method ResetRun(now: real, draw: nat -> HistoryDraws)
      requires forall i :: ValidHistoryDraws(draw(i))
      modifies this`balance, this`position, this`tradeAmount, this`quote
      modifies this`chart, this`trend, this`lastTick
      ensures Valid()
      ensures balance == STARTING_BALANCE && position.None? && tradeAmount == 250.0
      ensures quote.candles == PretendHistory(MAX_CANDLE_HISTORY as nat, STARTING_MARKET_CAP, draw).candles
      ensures |quote.candles| == MAX_CANDLE_HISTORY && quote.candles[0].open == STARTING_MARKET_CAP
      ensures quote.cap == quote.candles[|quote.candles| - 1].close
      ensures chart == ChartView(0, 0.0) && trend == Trend(0.0, 0, 0, 0)
      ensures quote.anchor == quote.cap && lastTick == now
    {
      var history := GeneratePretendHistory(MAX_CANDLE_HISTORY as nat, STARTING_MARKET_CAP, draw);
      balance := STARTING_BALANCE;
      position := None;
      tradeAmount := 250.0;
      quote := Quote(history[|history| - 1].close, history[|history| - 1].close, history);
      chart := ChartView(0, 0.0);
      trend := Trend(0.0, 0, 0, 0);
      lastTick := now;
    }

    /** The trade-size input's onChange with the typed value (None when it
     *  is not a finite number). */
    method SetTradeAmount(raw: Option<real>)
      requires Valid()
      modifies this`tradeAmount
      ensures Valid()
      ensures tradeAmount == TradeAmountInput(raw, balance)
      ensures tradeAmount <= MaxTradeAmount(balance)
    {
      tradeAmount := TradeAmountInput(raw, balance);
    }

    /** Pointer down on the chart: remembers where the drag started. */
    method BeginDrag(x: real, y: real)
      modifies this`drag
      ensures drag == DragStart(x, y, chart.offset, chart.vertical)
    {
      drag := DragStart(x, y, chart.offset, chart.vertical);
    }

    /** Pointer move during a drag: pans the chart by the distance from the
     *  drag's start, within bounds. */
    method DragTo(x: real, y: real)
      requires Valid()
      modifies this`chart
      ensures Valid()
      ensures chart == ChartView(DragOffset(drag.offset, x - drag.x, |quote.candles|), DragVerticalOffset(drag.vertical, y - drag.y))
    {
      chart := ChartView(DragOffset(drag.offset, x - drag.x, |quote.candles|), DragVerticalOffset(drag.vertical, y - drag.y));
    }
  }

  /** Opening a trade and closing it before the price moves gives back
   *  exactly the balance the account had. */
  method RoundTripAtSamePrice(m: Market, side: Side)
    requires m.Valid() && m.position.None? && m.balance >= MIN_COLLATERAL
    modifies m
    ensures m.Valid() && m.position.None?
    ensures m.balance == old(m.balance)
  {
    var entered := m.OpenTrade(side);
    var payout := m.CloseTrade();
  }
}
