# Portfolio mini-games and counters, modelled in Dafny

This project models the logic of a portfolio site's two browser mini-games and
of the serverless handlers behind their leaderboard and counters:

- **The endless runner** (`src/pages/FunPage.tsx`). It has a fixed-timestep
  physics loop with gravity, fast-fall while crouching, a fall-speed clamp,
  buffered jumps and a quarter turn per jump. It also covers the obstacle
  spawner, the scroll-and-despawn step, the inset hit boxes with their
  strict-overlap collision test, the score, and the start, jump and
  game-over transitions. The refs the frame handler mutates are the fields of
  class `RunnerEngine.Runner`.
- **The memecoin futures simulator** (`src/pages/MemecoinSimulatorPage.tsx`).
  It has an account with at most one 5x leveraged position (open, close,
  liquidation), the once-a-second price tick and its anti-streak trend picker,
  the price floor and the slow anchor, and the candle history capped at 320.
  It also covers the burn-in history generator, the visible chart window and
  its pan clamps, and the trade-size input. Pure arithmetic is in
  `MarketMath`. The page state lives in class `MarketEngine.Market`.
- **The API handlers** (`api/*.js`) over a Redis store. The store is class
  `Store.Redis`: integer counters, strings, expiries and sorted sets, each a
  map the commands reassign.
  - `api/_redis.js` gives the client address, the JSON body and the
    fixed-window rate limiter.
  - `api/likes.js` is the like counter. It never goes below zero.
  - `api/views.js` is the view counter with per-client deduplication of view
    identifiers.
  - `api/memecoin-leaderboard.js` is the leaderboard. It holds the 32-bit
    string hash that names a player, the balance normalisation, the row
    mapping, "keep only a better score" and the ten-best standings.
- **The page scrollbar** (`src/components/CustomScrollbar.tsx`). It gives the
  thumb's size and position for a scroll position, and the scroll position a
  thumb drag goes to.

Numbers are exact reals, and integers are unbounded. The JavaScript
`| 0` wrap-around is written out as ECMAScript ToInt32. `Math.round` is
floor(x + 0.5). Every `Math.random()` draw is a parameter in [0, 1). Every
clock reading (`Date.now()`, the frame timestamp) is a parameter.

## Model

| member | source | states |
|---|---|---|
| RunnerGeometry.Hitbox | src/pages/FunPage.tsx:39-61 | For a positive-size obstacle the hit box lies inside the sprite and has positive size. A ground obstacle loses 22% of its width on each side and 18% of its height at the top, with the same bottom edge. A flying one loses 28% on the left, 12.6% on the right and 20% at top and bottom. |
| RunnerGeometry.IsColliding | src/pages/FunPage.tsx:63-72 | A hit implies the sprites overlap. A player box inside the hit box is always a hit. A box that only touches the hit box, or lies apart from it, is never a hit. |
| RunnerEngine.Fall | src/pages/FunPage.tsx:266-277 | After gravity, fast-fall, the clamp and ground contact: velocity ≥ -16 and lift ≥ 0. Lift 0 means velocity 0. In the air and off the clamp, velocity drops by gravity plus 0.95 exactly when crouching in the air. |
| RunnerEngine.FastFallOnlyInTheAir | src/pages/FunPage.tsx:268-270 | Crouching on the ground changes nothing. Crouching in the air never leaves the player higher. |
| RunnerEngine.Speed | src/pages/FunPage.tsx:294 | Speed lies in [5, 8.1]. It is 5 + score/220 up to score 682 and 8.1 from there on. |
| RunnerEngine.SpawnDelay | src/pages/FunPage.tsx:316 | The next spawn delay lies in [520, 1400). From score 130 on it is below 1140. |
| RunnerEngine.Clearance | src/pages/FunPage.tsx:301 | A flying lane is 18, 34 or 50 pixels. |
| RunnerEngine.Shift | src/pages/FunPage.tsx:319 | Moving an obstacle keeps its id and moves x left by exactly the speed. A well-formed obstacle stays well formed. |
| RunnerEngine.ShiftMovesHitbox | src/pages/FunPage.tsx:39-61 | The moved obstacle's hit box is its old hit box moved left by the same distance. |
| RunnerEngine.Spawn | src/pages/FunPage.tsx:297-314 | A spawned obstacle is well formed, sits at x = 630 and carries the given id. It is a ground obstacle exactly when the kind draw exceeds 0.35. |
| RunnerEngine.Scroll | src/pages/FunPage.tsx:319-321 | The scrolled list is never longer than the input. |
| RunnerEngine.ScrollMembers | src/pages/FunPage.tsx:319-321 | An obstacle is kept exactly when it is an input obstacle moved left by the speed and its right edge is still past -20. Nothing but x changes. |
| RunnerEngine.ScrollOrdered | src/pages/FunPage.tsx:319-321 | Scrolling keeps ids and positions strictly increasing along the list. |
| RunnerEngine.SpawnAndScrollInFlight | src/pages/FunPage.tsx:297-321 | Spawning at most one obstacle with the next id, then scrolling at speed ≥ 5, keeps the list ordered, well formed and made of ids below the counter. |
| RunnerEngine.PlayerBox | src/pages/FunPage.tsx:323-326 | The player's box stands at x = 54 and is 34 wide. Its bottom is the ground less the lift. It is 24 high when crouching and 34 otherwise. |
| RunnerEngine.AnyHit | src/pages/FunPage.tsx:328-338 | The front-to-back `some` scan finds a hit exactly when some obstacle in the list collides with the player box. A player box apart from every hit box is never a hit. |
| RunnerEngine.AnyHitAppend | src/pages/FunPage.tsx:328-338 | A list cut in two is hit exactly when one of its parts is, so the scan does not depend on where the list is cut. |
| RunnerEngine.Runner.constructor | src/pages/FunPage.tsx:88-101 | The loaded page is not running and has no obstacles, score 0, a grounded player and a spawn timer of 900. |
| RunnerEngine.Runner.StartGame | src/pages/FunPage.tsx:117-144 | Every per-run value is reset: motion, rotation, score 0, spawn timer 800, no obstacles, keys released, clock cleared. The phase becomes running. The id counter and the best score carry over. |
| RunnerEngine.Runner.ApplyJumpImpulse | src/pages/FunPage.tsx:146-151 | Velocity becomes 10.6. The rotation start becomes the current angle, the target grows by exactly 90 and progress resets. |
| RunnerEngine.Runner.TriggerJump | src/pages/FunPage.tsx:178-188 | Outside a run it starts one and jumps: velocity 10.6, lift 0, a quarter turn to 90, score 0, spawn timer 800, no obstacles, keys released. During a run from the ground, only the velocity becomes 10.6 and a new quarter turn starts from the current angle. In the air nothing changes. |
| RunnerEngine.Runner.Integrate | src/pages/FunPage.tsx:266-277 | The step-by-step integration equals `Fall` and keeps the invariants. |
| RunnerEngine.Runner.Rotate | src/pages/FunPage.tsx:284-292 | In the air, progress advances and the angle is the start plus the eased share of the span. On the ground the angle snaps to the target. The target stays a multiple of 90. |
| RunnerEngine.Runner.Move | src/pages/FunPage.tsx:266-292 | The step meets `MoveStep`. A grounded player with the jump held relaunches in the same step: velocity 10.6, lift 10.6, target +90, progress 1. Otherwise the motion is `Fall`, and in the air progress advances by one. In the air the angle is the start plus the eased share of the span. On the ground the velocity is 0 and the angle is the target. It reports whether it relaunched. |
| RunnerEngine.Runner.Advance | src/pages/FunPage.tsx:294-321 | The timer drops by one step. When it reaches 0, exactly one obstacle with the old counter is appended, the counter increments and the timer is re-armed with `SpawnDelay`. The list is then scrolled at `Speed(score)`. |
| RunnerEngine.Runner.Tick | src/pages/FunPage.tsx:265-347 | One fixed step takes the old values to the new ones as `TickStep` states. The motion and rotation meet `MoveStep`: the buffered relaunch when the jump is held on landing, otherwise `Fall`, with the eased angle in the air and the target angle on the ground. On the spawn countdown running out, an obstacle with the next id is appended and a new delay drawn; every obstacle scrolls at the old score's speed, and collision is tested against the moved obstacles. A hit adds no score, and a clean step adds exactly 14/60. Lift ≥ 0, velocity ≥ -16 and the id order are kept. |
| RunnerEngine.Runner.FrameBudget | src/pages/FunPage.tsx:255-261 | The budget is the leftover plus the time since the last frame, capped at 100 ms. The first frame of a run adds nothing, and a gap within 100 ms is added in full. |
| RunnerEngine.Runner.RunSteps | src/pages/FunPage.tsx:265-347 | `FrameSteps`: the ghost trace starts at the old values and ends at the new ones, and each neighbouring pair is one `TickStep` with the k-th draws. No step but the last hits, and the last hits exactly when the run is over. Each completed tick spends one step and scores 14/60. Without a hit, less than one step is left. A hit stops the loop with its step unspent, and the player box then collides with an obstacle. |
| RunnerEngine.ExtendTrace | src/pages/FunPage.tsx:265-347 | A hit-free trace extended by one more `TickStep` with the next draws is a trace of the frame, over exactly when that step hits. |
| RunnerEngine.Runner.EndRun | src/pages/FunPage.tsx:350-358 | The run is over, the crouch is released and best becomes max(best, floor(score)), never below the floored score. |
| RunnerEngine.Runner.Frame | src/pages/FunPage.tsx:254-366 | `FrameSteps` from the old values with the keys held at the start and the budget `FrameBudget` (the elapsed time, capped at 100 ms): the trace of `TickStep`s from the old values to the new ones, one completed tick per step spent and 14/60 per completed tick, and the leftover stored in the clock. The run ends only on a hit, which collides the player box with an obstacle and leaves at least one step unspent. The end releases the crouch and sets best to max(best, floor(score)), so best never decreases. Without a hit, less than one step of budget is left over and the keys are unchanged. |
| RunnerEngine.Runner.PressJump | src/pages/FunPage.tsx:211-214 | The press triggers the jump as `TriggerJump` does. Outside a run it starts a fresh run with velocity 10.6 and a quarter turn to 90, and the held flag ends cleared. During a run from the ground it sets velocity 10.6 and starts a new quarter turn from the current angle. In the air the body and the rotation are unchanged. During a run the jump stays held and nothing else changes. |
| RunnerEngine.Runner.PressCrouch | src/pages/FunPage.tsx:216-223 | During a run it sets the crouch flag and changes nothing else. Outside a run a fresh press starts one without crouching, with every per-run value reset as `StartGame` does (standing body, cleared rotation, score 0, spawn timer 800, no obstacles, released keys, clock cleared) and the id counter kept. A key repeat outside a run changes nothing. |
| RunnerEngine.Runner.ReleaseJump | src/pages/FunPage.tsx:230-232 | Releasing the jump key ends jump buffering and changes nothing else. |
| RunnerEngine.Runner.ReleaseCrouch | src/pages/FunPage.tsx:234-237 | Releasing the crouch key stands the player up during a run. |
| RunnerEngine.IdleRun | src/pages/FunPage.tsx:122-143 | From a fresh run with no input, n ≤ 47 ticks leave lift 0 and score n·14/60. |
| MarketMath.PnlMultiple | src/pages/MemecoinSimulatorPage.tsx:85-95 | With no position the multiple is 0. A long gains five times the relative rise over the entry. A short gains five times the relative fall against the current cap. |
| MarketMath.PnlSign | src/pages/MemecoinSimulatorPage.tsx:85-95 | The multiple is 0 exactly at the entry price. It is positive exactly when the price moved the position's way. |
| MarketMath.LiquidationThresholds | src/pages/MemecoinSimulatorPage.tsx:91-94 | A long is wiped out exactly when the cap is at most 0.8·entry. A short is wiped out exactly when the cap is at least 1.25·entry. |
| MarketMath.CappedPnl | src/pages/MemecoinSimulatorPage.tsx:97-99 | The percentage shown is never below -100% and equals the multiple above that. |
| MarketMath.Payout | src/pages/MemecoinSimulatorPage.tsx:308 | The payout is never negative. It is the collateral at the entry price, 0 once wiped out, and collateral·(1 + pnl) otherwise. |
| MarketMath.PayoutExample | src/pages/MemecoinSimulatorPage.tsx:305-314 | A long of 100 opened at 1,000,000 and closed at 1,100,000 pays 150. |
| MarketMath.Collateral | src/pages/MemecoinSimulatorPage.tsx:291 | The stake is at least 10. With a balance of at least 10 it never exceeds the balance. It is the requested amount when that lies in [10, balance], and the balance when the request exceeds it. It is 10 when the request is at most 10 or the balance is below 10. |
| MarketMath.OpenRefusedIffPoor | src/pages/MemecoinSimulatorPage.tsx:291-294 | openTrade's refusal test fires exactly when the balance is below 10. |
| MarketMath.ExcludeSign | src/pages/MemecoinSimulatorPage.tsx:144 | The streak filter never lengthens the list. Its exact membership is stated by `ExcludeSignMembers`. |
| MarketMath.ExcludeSignKeepZero | src/pages/MemecoinSimulatorPage.tsx:146 | The soft filter never lengthens the list. Its exact membership is stated by `KeepZeroMembers`. |
| MarketMath.ExcludeSignMembers | src/pages/MemecoinSimulatorPage.tsx:144 | The streak filter keeps exactly the modes of another sign. |
| MarketMath.KeepZeroMembers | src/pages/MemecoinSimulatorPage.tsx:146 | The soft filter keeps exactly the modes of another sign, plus zero. |
| MarketMath.FiltersAgree | src/pages/MemecoinSimulatorPage.tsx:143-147 | Against a real direction both filters give the same list. |
| MarketMath.OppositeCandidates | src/pages/MemecoinSimulatorPage.tsx:143-147 | Against either direction both filters leave four candidates, one of them zero, so the list is never empty. |
| MarketMath.Candidates | src/pages/MemecoinSimulatorPage.tsx:139-147 | After upward moves, the candidates are zero and the three downward modes when the streak is two or the 0.45 draw succeeds. After downward moves it is the mirror case. Without a direction, or with a streak below two and a failed draw, they are all seven modes. |
| MarketMath.CandidatesBreakStreaks | src/pages/MemecoinSimulatorPage.tsx:143-149 | Every candidate is a trend mode. After a streak of two, every candidate's sign differs from the last direction. |
| MarketMath.PickIndex | src/pages/MemecoinSimulatorPage.tsx:149 | floor(r·n) for r in [0, 1) is a valid index. |
| MarketMath.NextStreak | src/pages/MemecoinSimulatorPage.tsx:152-158 | A flat pick resets the streak to 0. A new direction sets it to 1. A repeat extends it by one. |
| MarketMath.PickKeepsStreak | src/pages/MemecoinSimulatorPage.tsx:139-161 | A pick keeps the bookkeeping: streak in {0, 1, 2}, and streak 0 exactly when there is no direction. |
| MarketMath.PickedBias | src/pages/MemecoinSimulatorPage.tsx:139-161 | The picked bias is a trend mode. It breaks a streak of two, and the streak bookkeeping after it still holds. |
| MarketMath.Shock | src/pages/MemecoinSimulatorPage.tsx:182-185 | Without the 10% roll there is no shock. With it, the shock's size is exactly 4% + 13% of the size draw, so it lies in [4%, 17%). For a rising trend the shock is upward exactly when the 0.65 draw succeeds. For a falling trend it is downward exactly then. For a flat trend it is upward exactly when the coin and the 0.65 draw agree. |
| MarketMath.NextCap | src/pages/MemecoinSimulatorPage.tsx:180-186 | The next cap never falls below 25,000. |
| MarketMath.QuietTickFollowsTrend | src/pages/MemecoinSimulatorPage.tsx:180-186 | With neutral noise, no shock and the cap at the anchor, the cap rises with a rising trend, holds with a flat one and falls (or hits the floor) with a falling one. |
| MarketMath.NextAnchor | src/pages/MemecoinSimulatorPage.tsx:188 | The new anchor lies between the old anchor and the new cap. |
| MarketMath.NewCandle | src/pages/MemecoinSimulatorPage.tsx:194-201 | The tick's candle opens at the previous close, closes at the new cap, and has the max and min of the two as high and low. |
| MarketMath.TakeLast | src/pages/MemecoinSimulatorPage.tsx:203 | slice(-n) for n > 0 gives the last min(n, length) elements. slice(-0) gives the whole sequence. |
| MarketMath.AppendCandle | src/pages/MemecoinSimulatorPage.tsx:190-203 | The history gains the tick's candle at its end and keeps its last 320. Below 320 nothing is dropped. |
| MarketMath.AppendCandleKeepsChain | src/pages/MemecoinSimulatorPage.tsx:190-203 | Appending keeps every candle opening at the previous close, every candle sane and every close above the floor. |
| MarketMath.ChainedSuffix | src/pages/MemecoinSimulatorPage.tsx:203 | Dropping candles from the front keeps the history chained. |
| MarketMath.VisibleStart | src/pages/MemecoinSimulatorPage.tsx:231-236 | The window start is within the history. Within the clamp it is 56 plus the offset before the end, and 0 past it. |
| MarketMath.VisibleCandles | src/pages/MemecoinSimulatorPage.tsx:231-236 | The chart shows 56 consecutive candles, or all of them when fewer. With no offset it shows the newest. |
| MarketMath.DragOffset | src/pages/MemecoinSimulatorPage.tsx:406-409 | The horizontal pan never passes the oldest view. Within the clamp it is the start offset plus one candle per ten pixels. |
| MarketMath.DragVerticalOffset | src/pages/MemecoinSimulatorPage.tsx:412-413 | The vertical pan stays within ±30 and moves one unit per six pixels inside that range. |
| MarketMath.FollowOffset | src/pages/MemecoinSimulatorPage.tsx:205-212 | A chart at the newest view stays there. A chart moved back goes one candle further back, bounded by the history length plus one less 56. |
| MarketMath.FollowKeepsView | src/pages/MemecoinSimulatorPage.tsx:190-212 | A chart moved back, and not to the oldest view, shows the same candles after a tick as before it. |
| MarketMath.ShiftKeepsView | src/pages/MemecoinSimulatorPage.tsx:190-236 | One candle further back in the extended history is the same 56 candles. |
| MarketMath.MaxTradeAmount | src/pages/MemecoinSimulatorPage.tsx:229 | The maximum is max(balance, 10) rounded to whole cents, so within half a cent of it. It is 10 for a balance up to 10 and exactly the balance for a balance in whole cents above 10. |
| MarketMath.TradeAmountInput | src/pages/MemecoinSimulatorPage.tsx:483-497 | A non-number or a value at most 0 gives 0. The amount lies in [0, max] and is whole cents. Above the maximum it is the maximum. Inside the range it is the typed value rounded to cents, and a value already in cents is kept. |
| MarketEngine.HistoryClose | src/pages/MemecoinSimulatorPage.tsx:49-56 | A burn-in close never falls below 25,000. |
| MarketEngine.GeneratePretendHistory | src/pages/MemecoinSimulatorPage.tsx:31-66 | The result is exactly the candles of `PretendHistory(count, seed, draw)`: each candle refreshes a spent trend from its draws, closes at `HistoryClose` and spans its open and its close. It has exactly `count` candles. The first opens at the seed, each opens at the previous close, each is sane and each closes at or above 25,000. |
| MarketEngine.PretendHistoryShape | src/pages/MemecoinSimulatorPage.tsx:31-66 | The burn-in history of n candles has n candles: the first opens at the seed, each opens at the previous close, the last closes at the current cap, and every candle is sane and closes at or above 25,000. |
| MarketEngine.AppendKeepsGood | src/pages/MemecoinSimulatorPage.tsx:190-203 | Extending a good history keeps it good, ends it at the new close and never shortens it. |
| MarketEngine.Moved | src/pages/MemecoinSimulatorPage.tsx:186-203 | After a move the quote's cap is the new cap, the history still ends at it, and nothing drops below the floor. |
| MarketEngine.MoveKeepsConsistent | src/pages/MemecoinSimulatorPage.tsx:186-203 | A price move keeps the page invariant. |
| MarketEngine.Market.constructor | src/pages/MemecoinSimulatorPage.tsx:105-123 | The page loads with $1,000, no position and a 250 trade size. The candles are the 320-candle `PretendHistory` from 1,000,000, and the cap and the anchor are its last close. Both chart pans are 0, the drag refs are 0, the trend refs are cleared and the last tick is 0. |
| MarketEngine.Market.OpenTrade | src/pages/MemecoinSimulatorPage.tsx:286-303 | It enters exactly when no position is open and the balance is at least 10. The stake lies in [10, balance] and leaves the balance. The entry is the current cap. A refusal changes nothing. |
| MarketEngine.Market.CloseTrade | src/pages/MemecoinSimulatorPage.tsx:305-314 | The position is cleared and its non-negative payout is added to the balance. Without a position nothing happens. |
| MarketEngine.Market.CheckLiquidation | src/pages/MemecoinSimulatorPage.tsx:274-284 | A position at multiple ≤ -1 is cleared without crediting the balance. Otherwise it stays. |
| MarketEngine.Market.PickTrendBias | src/pages/MemecoinSimulatorPage.tsx:139-162 | The bias is `PickedBias`, the drawn candidate, and one of the seven modes. After a streak of two it breaks the streak. The streak and direction refs update as `NextStreak` and stay consistent. Nothing else in the trend changes. |
| MarketEngine.NextTrend | src/pages/MemecoinSimulatorPage.tsx:173-178 | On a refresh, which happens when the trend is spent or the 0.08 draw succeeds, the new bias is `PickedBias`. The direction is its sign, the streak follows `NextStreak`, and the counter is 3 + floor(7·draw), in [3, 9], after the tick it uses. Otherwise only the counter drops by one. The streak bookkeeping holds either way. |
| MarketEngine.Market.AdvanceTrend | src/pages/MemecoinSimulatorPage.tsx:173-178 | The trend refs become exactly `NextTrend` of the old ones, and the page invariant holds. |
| MarketEngine.Market.StepPrice | src/pages/MemecoinSimulatorPage.tsx:180-203 | The cap becomes `NextCap`, the anchor follows it, and the history gains the tick's candle. |
| MarketEngine.Market.MoveTo | src/pages/MemecoinSimulatorPage.tsx:186-203 | The quote becomes `Moved` of the old quote, and the page invariant holds. |
| MarketEngine.Market.SimulationTick | src/pages/MemecoinSimulatorPage.tsx:164-216 | It is ignored unless a full second has passed. Otherwise the trend becomes `NextTrend`, and the cap becomes `NextCap` under the new bias. The anchor becomes `NextAnchor` of the old anchor and the new cap. The history gains the tick's candle, and the pan follows with `FollowOffset`. |
| MarketEngine.Market.FollowChart | src/pages/MemecoinSimulatorPage.tsx:205-212 | The pan follows the new candle as `FollowOffset` says and stays within its bound. |
| MarketEngine.Market.ResetRun | src/pages/MemecoinSimulatorPage.tsx:316-334 | $1,000, no position, 250 trade size, the candles a fresh 320-candle `PretendHistory` from 1,000,000, the cap at its last close, the pan and the trend cleared, the anchor at the new cap, the last tick at `now`. |
| MarketEngine.Market.SetTradeAmount | src/pages/MemecoinSimulatorPage.tsx:483-497 | The trade size becomes the clamped input, never above the maximum. |
| MarketEngine.Market.BeginDrag | src/pages/MemecoinSimulatorPage.tsx:394-401 | The drag start records the pointer and the current pan. |
| MarketEngine.Market.DragTo | src/pages/MemecoinSimulatorPage.tsx:402-415 | The pan becomes the clamped drag offsets from the drag start, and the page invariant holds. |
| MarketEngine.RoundTripAtSamePrice | src/pages/MemecoinSimulatorPage.tsx:286-314 | Opening a trade and closing it at an unchanged price gives back exactly the old balance. |
| Basics.ToInt32 | api/memecoin-leaderboard.js:10-11 | The result is a signed 32-bit integer congruent to the input modulo 2^32, and a 32-bit input is unchanged. |
| Basics.ToInt32Congruent | api/memecoin-leaderboard.js:10-11 | Inputs congruent modulo 2^32 wrap to the same value. |
| Basics.Round | src/components/CustomScrollbar.tsx:31 | Math.round gives the one integer in (x - 0.5, x + 0.5], so halves round up. |
| Basics.RoundCents | api/memecoin-leaderboard.js:33 | Rounding to cents moves a value by at most half a cent. |
| Basics.RoundCentsIsCents | api/memecoin-leaderboard.js:33 | Rounding to cents lands on a whole number of cents. |
| Basics.RoundCentsFixes | api/memecoin-leaderboard.js:33 | A whole number of cents is unchanged. |
| Basics.RoundCentsMonotone | api/memecoin-leaderboard.js:33 | Rounding to cents keeps order. |
| PlayerIdentity.HashFold | api/memecoin-leaderboard.js:7-12 | The hash is always a signed 32-bit integer. |
| PlayerIdentity.HashStep | api/memecoin-leaderboard.js:10-11 | One round of the loop leaves a signed 32-bit integer. `StepMultipliesBy31` gives its value. |
| PlayerIdentity.StepMultipliesBy31 | api/memecoin-leaderboard.js:10-11 | `(h << 5) - h + c` then `\| 0` is 31·h + c wrapped to 32 bits. |
| PlayerIdentity.HashIsWrappedPolynomial | api/memecoin-leaderboard.js:7-12 | The loop's hash is the base-31 polynomial of the character codes, wrapped once at the end. |
| PlayerIdentity.PlayerHash | api/memecoin-leaderboard.js:13 | The hash is 1 to 8 lower-case hexadecimal digits with no sign. |
| PlayerIdentity.HexLength | api/memecoin-leaderboard.js:13 | A number up to 2^31 has at most eight hexadecimal digits. |
| PlayerIdentity.HashIdentifier | api/memecoin-leaderboard.js:7-14 | The loop returns `PlayerHash`, the wrapped polynomial in hexadecimal. |
| PlayerIdentity.PlayerMember | api/memecoin-leaderboard.js:16-19 | The member is "player:" followed by the hash of the address, or of "unknown" for an empty address. |
| PlayerIdentity.BuildPlayerMember | api/memecoin-leaderboard.js:16-19 | The method computes `PlayerMember`. |
| PlayerIdentity.BuildPlayerName | api/memecoin-leaderboard.js:21-24 | The name starts with "Player-" and has at most six characters after it. |
| PlayerIdentity.NameOfMember | api/memecoin-leaderboard.js:16-24 | A player's own member is named "Player-" followed by the first (up to six) digits of the hash, upper-cased. |
| PlayerIdentity.NameOfMemberDigits | api/memecoin-leaderboard.js:16-24 | That name shows at least one character after "Player-", and each one is a digit or a letter A to F. |
| PlayerIdentity.NormalizeBalance | api/memecoin-leaderboard.js:26-34 | A non-number gives null. Otherwise the score lies in [0, 1e9], is whole cents, and is within half a cent of the clamped input. |
| PlayerIdentity.NormalizeKeeps | api/memecoin-leaderboard.js:26-34 | A balance in range and in whole cents is kept as it is. |
| PlayerIdentity.NormalizeIdempotent | api/memecoin-leaderboard.js:26-34 | Normalising twice is normalising once. |
| PlayerIdentity.NormalizeMonotone | api/memecoin-leaderboard.js:26-34 | A higher raw balance never normalises to a lower score. |
| Leaderboard.RankFrom | api/memecoin-leaderboard.js:42-46 | Each row is ranked by its position from the first rank and named after its member. |
| Leaderboard.Pairs | api/memecoin-leaderboard.js:49-64 | The flat reply is read two cells at a time. There are ⌊n/2⌋ rows, and a trailing lone cell is dropped. |
| Leaderboard.MapFlatRows | api/memecoin-leaderboard.js:49-64 | Flat cells are read two at a time. Each complete name and score pair becomes one row, ranked 1..⌊n/2⌋ in order. A trailing unpaired cell is skipped. |
| Leaderboard.MapLeaderboardRows | api/memecoin-leaderboard.js:36-65 | A non-array gives no rows. Object rows are ranked 1..n in order. Flat rows give the pairs ranked 1..⌊n/2⌋. |
| Leaderboard.AsRows | api/memecoin-leaderboard.js:67-73 | The sorted set's entries are turned into rows in order. |
| Leaderboard.WithScores | api/memecoin-leaderboard.js:68-71 | The flat reply alternates each entry's member and score, in order. |
| Leaderboard.PairsOfWithScores | api/memecoin-leaderboard.js:49-73 | Reading the flat reply back gives the entries in the order sent. |
| Leaderboard.Standings | api/memecoin-leaderboard.js:67-74 | There are min(n, 10) rows, ranked 1, 2, ... in order. `StandingsShape` gives their contents. |
| Leaderboard.StandingsShape | api/memecoin-leaderboard.js:67-74 | The standings have at most ten rows, ranked 1, 2, ... and best first. Each is the named score of the entry at that place, and no entry left out beats one shown. |
| Leaderboard.ReadLeaderboard | api/memecoin-leaderboard.js:67-74 | It returns the standings of the stored board. |
| Leaderboard.KeptScore | api/memecoin-leaderboard.js:110-113 | A new member keeps the submission. An existing one keeps the larger of the two, so a stored score never decreases. |
| Leaderboard.Submitted | api/memecoin-leaderboard.js:110-113 | After a valid submission the board is still best first with unique members. The member holds `KeptScore` and nobody else's score changes. |
| Leaderboard.Submit | api/memecoin-leaderboard.js:100-116 | A null score gives "Invalid score" and a score ≤ 1000 gives "Score must be above 1000", both with the store unchanged. Otherwise the board becomes `Submitted` and the reply holds its standings. No other set changes. |
| Leaderboard.Handle | api/memecoin-leaderboard.js:76-123 | GET returns the standings without a write. POST adds one to its 6-a-minute budget counter and changes no other counter. It sets that counter's expiry on the window's first call only, and changes no sorted set other than the board. Over budget it returns 429 with no set change. Within budget it follows `Submit` on the normalised body score. Any other method returns 405 without a write. |
| SortedSet.Members | api/memecoin-leaderboard.js:110-113 | A member belongs exactly when some entry carries it. There are never more members than entries, and exactly as many when no member repeats. |
| SortedSet.ZScore | api/memecoin-leaderboard.js:110 | ZSCORE is null exactly for a non-member, and a score it returns belongs to an entry of the member. |
| SortedSet.ZScoreOfEntry | api/memecoin-leaderboard.js:110 | In a set without duplicates, ZSCORE returns the score of the member's entry. |
| SortedSet.Without | api/memecoin-leaderboard.js:112 | Removing a member keeps exactly the other members' entries. |
| SortedSet.WithoutKeepsOrder | api/memecoin-leaderboard.js:112 | Removing a member keeps the set best first. |
| SortedSet.WithoutKeepsUnique | api/memecoin-leaderboard.js:112 | Removing a member keeps the members unique. |
| SortedSet.Insert | api/memecoin-leaderboard.js:112 | Inserting adds exactly the entry and keeps the set best first. |
| SortedSet.InsertNewMember | api/memecoin-leaderboard.js:112 | Inserting an absent member keeps the members unique. |
| SortedSet.ZAdd | api/memecoin-leaderboard.js:112 | ZADD leaves exactly the new entry and the other members' entries, and keeps a good set good. |
| SortedSet.ZAddScores | api/memecoin-leaderboard.js:110-113 | After ZADD the member holds the new score and every other member keeps its own. |
| SortedSet.TopN | api/memecoin-leaderboard.js:68-71 | The reply is a prefix of at most n entries, best first. No entry left out beats one returned. |
| Store.Redis.constructor | api/_redis.js:5-15 | An empty store. |
| Store.Redis.Get | api/likes.js:11 | GET is null exactly when the key is absent, and read with `?? 0` it gives the count INCR starts from. |
| Store.Redis.ReadCount | api/likes.js:11 | `(await redis.get(key)) ?? 0` is the stored count, 0 when absent. |
| Store.Redis.Incr | api/_redis.js:51 | INCR adds one (an absent key counts as 0), returns the new value and changes no other key. |
| Store.Redis.Decr | api/likes.js:48 | DECR subtracts one (an absent key counts as 0), returns the new value and changes no other key. |
| Store.Redis.Expire | api/_redis.js:53 | EXPIRE records the key's time to live. |
| Store.Redis.SetIfAbsent | api/views.js:32-35 | SET NX EX writes exactly when the key does not exist, and reports whether it wrote. |
| Store.Redis.ZSet | api/memecoin-leaderboard.js:110 | The stored sorted set is always best first with unique members. |
| Store.Redis.ZAddMember | api/memecoin-leaderboard.js:112 | ZADD sets the member's score in that key's set only, and keeps every set good. |
| Text.TrimStart | api/_redis.js:37 | It removes exactly the leading white space. |
| Text.TrimEnd | api/_redis.js:37 | It removes exactly the trailing white space. |
| Text.Trim | api/_redis.js:37 | The result neither starts nor ends with white space. It is a prefix of the text without its leading white space, and everything cut from that is white space. Text without white space is unchanged. |
| Text.TrimKeepsCharacters | api/_redis.js:37 | Trimming only removes characters. |
| Text.BeforeComma | api/_redis.js:37 | The result is the prefix before the first comma, or the whole text, and holds no comma. |
| Text.Take | api/views.js:28 | slice(0, n) is the prefix of length min(n, length). |
| Text.UpperChar | api/memecoin-leaderboard.js:23 | Lower-case ASCII letters are upper-cased, and every other character is unchanged. |
| Text.Upper | api/memecoin-leaderboard.js:23 | toUpperCase keeps the length and upper-cases character by character. |
| Text.RemoveFirst | api/memecoin-leaderboard.js:22 | Text that starts with the pattern loses exactly that prefix. At most one occurrence is removed: the length drops by the pattern's length or not at all. |
| Text.RemoveFirstSplits | api/memecoin-leaderboard.js:22 | For a non-empty pattern, text without an occurrence is unchanged. Otherwise the result is the text before the first occurrence followed by the text after it. |
| Text.ToRadix | api/memecoin-leaderboard.js:13 | toString(radix) writes at least one digit, valid digits only, and no leading zero. |
| Text.RadixRoundTrip | api/memecoin-leaderboard.js:13 | Reading the digits back gives the number. |
| Text.RadixInjective | api/memecoin-leaderboard.js:13 | Distinct numbers are written differently. |
| RedisHelpers.GetClientIp | api/_redis.js:33-45 | A missing or empty header gives "unknown". A string header gives the trimmed text before its first comma, and a list header uses its first element. The address never holds a comma. |
| RedisHelpers.FirstAddress | api/_redis.js:37-41 | `split(',')[0].trim()` holds no comma. |
| RedisHelpers.ListUsesFirstOnly | api/_redis.js:36-42 | A list header behaves like its first element alone, except that an empty first element gives an empty address. |
| RedisHelpers.PlainAddress | api/_redis.js:33-45 | A single plain address comes back unchanged, in either header form. |
| RedisHelpers.BeforeCommaOfPlain | api/_redis.js:37 | Text without a comma is kept whole. |
| RedisHelpers.ParseJsonBody | api/_redis.js:17-31 | A missing or empty body is `{}`, and text that does not parse is `{}`. Parsable text gives its parse, and an already parsed body passes through. |
| RedisHelpers.Window | api/_redis.js:48 | The window number w satisfies w·span ≤ now < (w+1)·span. |
| RedisHelpers.RateLimitKey | api/_redis.js:49 | The key starts with "ratelimit:". |
| RedisHelpers.SameWindowSameKey | api/_redis.js:48-49 | For one scope and client, two calls share a counter exactly when they fall in the same window. |
| RedisHelpers.RateLimitKeyIsSeparate | api/_redis.js:49 | A rate-limit key never collides with a key outside the "ratelimit:" space. |
| RedisHelpers.EnforceRateLimit | api/_redis.js:47-61 | It counts the call in its window's counter and sets the expiry on the window's first call only. It allows the call exactly when the count is within the limit. |
| RedisHelpers.BurstInOneWindow | api/_redis.js:47-61 | In a fresh window, the k-th call is allowed exactly when k ≤ limit, and the counter ends at the number of calls. |
| Likes.Handle | api/likes.js:5-52 | GET returns the count without a write. POST and DELETE draw on one 20-a-minute budget; over it they return 429 with the count unchanged. POST adds exactly 1. DELETE at or below 0 returns 0 without a write, and otherwise subtracts 1. The reported likes after DELETE are never negative. Other methods return 405 without a write. No other counter changes. On POST and DELETE the only expiry written is the budget key's 60 s, and only when its count was 0 before; GET and other methods leave the expiries unchanged. |
| Views.ViewId | api/views.js:28 | The identifier is the first min(120, length) characters of the trimmed header, and empty without a header. |
| Views.DedupeKey | api/views.js:31 | The marker key starts with "dedupe:view:". |
| Views.DedupeKeyDistinguishesViews | api/views.js:31 | For one client, two identifiers share a marker exactly when they are the same identifier. |
| Views.RecordView | api/views.js:30-44 | The reply and the store it leaves are exactly the outcome `Recorded` gives for that client, identifier and prior store; RecordedSpec states what that outcome is. |
| Views.KeysAreSeparate | api/views.js:9-31 | For any client, identifier and clock reading, the view counter, the client's budget counter and the view's marker are three different keys, so the handler's writes cannot interfere. |
| Views.PostView | api/views.js:16-45 | The reply and the store it leaves are exactly the outcome `PostOutcome` gives for the request's client and trimmed identifier over the prior store; PostOutcomeSpec states what that outcome is. |
| Views.Handle | api/views.js:6-47 | GET returns the count without a write. Every method but POST and GET returns 405 without a write. No method but POST touches the markers or the expiries. POST leaves exactly the outcome `PostOutcome` gives (see PostOutcomeSpec). |
| Views.RecordedSpec | api/views.js:30-44 | Within the budget, the reply is the stored count afterwards, and it rose by exactly 1 unless this client already marked this identifier. An identified view is marked afterwards. Only a new identified view writes its marker ("1") and that marker's 600 s expiry; a seen view or one without an identifier writes neither. No counter but the view count changes. |
| Views.AllowedPostIsRecorded | api/views.js:17-44 | Within the budget, the POST outcome is `Recorded` over the store with the budget counter raised by one and the budget's expiry set on the window's first call. |
| Views.CountView | api/views.js:17-44 | For a given client and identifier, the reply and the store it leaves are exactly the outcome `PostOutcome` gives over the prior store. |
| Views.PostOutcomeSpec | api/views.js:17-44 | A POST spends one call of the 30-a-minute budget. Over budget it returns 429 without counting. A seen view returns the count unchanged. An empty or new identifier counts exactly once. The budget key gets its 60 s expiry only on the window's first call. Only a new identified view writes its marker and the marker's 600 s expiry. Afterwards an identified view's marker exists, and no counter but the budget and the view count changes. |
| Views.RepeatViewCountsOnce | api/views.js:30-44 | The same client sending the same identified view twice moves the counter at most once. |
| Scrollbar.ScrollRange | src/components/CustomScrollbar.tsx:20 | The range is document - viewport when the page is taller than the viewport, and 0 exactly when the page fits. |
| Scrollbar.TrackHeight | src/components/CustomScrollbar.tsx:29 | The track is the viewport less both margins, never below 42 pixels. |
| Scrollbar.ThumbHeight | src/components/CustomScrollbar.tsx:30-33 | The thumb is a whole number of pixels between 42 and the track height. |
| Scrollbar.ShareOfTrack | src/components/CustomScrollbar.tsx:31 | The visible share of the track is shorter than the track. |
| Scrollbar.RoundBelow | src/components/CustomScrollbar.tsx:31 | Rounding a value below a whole number stays at or below it. |
| Scrollbar.Proportion | src/components/CustomScrollbar.tsx:35 | The scaled position lies before, within or after the travel, as the scroll position lies relative to the range. |
| Scrollbar.TopAt | src/components/CustomScrollbar.tsx:34-39 | The thumb's top is 14 at or before the top, 14 + travel at or past the end, and proportional in between. |
| Scrollbar.ThumbTop | src/components/CustomScrollbar.tsx:34-39 | The thumb's top stays within [14, 14 + travel]. It is 14 plus the scaled position when that lies on the travel, and otherwise the nearer end. |
| Scrollbar.ScaleMonotone | src/components/CustomScrollbar.tsx:35 | Scaling keeps order. |
| Scrollbar.Rescale | src/components/CustomScrollbar.tsx:82-84 | A drag scaled from thumb travel to scroll range, synced back, moves the thumb by the same distance. |
| Scrollbar.SyncThumb | src/components/CustomScrollbar.tsx:16-40 | The thumb shows exactly when the page can scroll, and a hidden thumb resets to height 42 and top 14. A shown thumb lies within the track, between the top margin and the bottom of the track. |
| Scrollbar.ThumbFollowsScroll | src/components/CustomScrollbar.tsx:34-39 | At the page top the thumb sits at the track top, and at the bottom at the track bottom. In between it follows the scroll position proportionally. |
| Scrollbar.ThumbMonotone | src/components/CustomScrollbar.tsx:34-39 | Scrolling further down never moves the thumb up. |
| Scrollbar.DragScroll | src/components/CustomScrollbar.tsx:67-88 | A drag does nothing exactly when the page cannot scroll or the thumb has no room to travel. Otherwise the target lies within [0, range]. |
| Scrollbar.DragTarget | src/components/CustomScrollbar.tsx:81-87 | Unclamped, the target is the start plus the pointer's move scaled from travel to range. A drag that does not move stays put, and moving down never scrolls up. |
| Scrollbar.DragMovesThumbWithPointer | src/components/CustomScrollbar.tsx:16-88 | Dragging and syncing agree: moving the pointer by d scrolls to where the synced thumb has moved by exactly d, when nothing is clamped. |

## Left out

- Rendering, the React scheduling of `useState` and `useEffect`, pointer capture, `preventDefault` and focus handling, the SVG chart geometry, and every piece of text formatting (currency, market cap, the percentage text, `toLocaleString`).
- `fetch` calls (loading and submitting the leaderboard from the pages), `localStorage` (the runner's stored best score is a constructor parameter), and the `getRedis` environment check with its 500 replies.
- `requestAnimationFrame`, `setInterval` and `Date.now()` become explicit timestamps. `Math.random()` draws become parameters in [0, 1), with no reasoning about probabilities.
- Floating point. Numbers are exact reals, so results that depend on binary rounding (`0.1 + 0.2`, for example) are not captured.
- RunnerEngine.Runner.Rotate: the ease curve 1 - (1 - p)^1.65 has a non-integer exponent. It is a parameter, only assumed to map [0, 1] into [0, 1].
- MarketEngine.GeneratePretendHistory: the inner loop that runs exactly once per candle is written as a single step.
- Store.Redis.SetIfAbsent: a key that holds a sorted set counts as absent, where Redis `SET NX` would refuse it; no key the handlers write with `SET NX` (the `dedupe:view:` markers) is ever a sorted-set key, so the handlers' behaviour is the same.
- Redis time-to-live expiry. Expiries are recorded but keys never expire, so a dedupe marker or a rate-limit counter outlives its window in the model.
- Concurrent requests against the store, and Redis command failures.
- SortedSet.Insert: the order among members with equal scores is a model choice. Redis orders ties by member name, which is not modelled.
- Text.Trim and Text.Upper cover ASCII only. Unicode white space, non-ASCII case mapping and UTF-16 code units (`charCodeAt` on characters outside the Basic Multilingual Plane) are not modelled.
- RedisHelpers.ParseJsonBody: `JSON.parse` is a parameter, and `Number()` on a body field is folded into the payload. A body that parses to `null` or to a non-object is not modelled.
- Leaderboard.MapLeaderboardRows: a flat reply is a sequence of name and score cells. `String()` of a score cell and `Number()` of a name cell are not modelled. A reply mixing objects and cells, and object rows after a non-object first row, are not modelled.
- Views.ViewId: an `x-view-id` header given as a list (whose `String()` joins the items with commas) is not modelled.
- MarketEngine.Market.SimulationTick: the follow rule in the tick's chart-offset update reads the history length from the render that installed the interval, which is stale. The model uses the length before the tick's candle is added. The result differs only in the upper bound, which the visible-window clamp absorbs.
- MarketMath.LiquidationThresholds: the code liquidates a short when the cap reaches 1.25 times the entry. A 20% rise against a short gives a multiple of -5/6, not -1. The model follows the code.
- The unreachable fallback in `resetRun` (`?? STARTING_MARKET_CAP` on an empty history) is not modelled, because the generated history always holds 320 candles.
- The keyboard and pointer wiring around the runner's jump and crouch handlers. `PressJump`, `PressCrouch`, `ReleaseJump` and `ReleaseCrouch` model only their effect on the engine.
