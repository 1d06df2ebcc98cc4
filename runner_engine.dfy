/** The endless runner's engine (src/pages/FunPage.tsx): a fixed-timestep
 *  physics loop with gravity, fast-fall, buffered jumps and a quarter turn per
 *  jump, an obstacle spawner, the collision test and the score. The React
 *  refs the frame handler mutates are the fields of class Runner. */
module RunnerEngine {
  import opened Basics
  import opened RunnerGeometry

  const GAME_WIDTH: real := 620.0
  const GROUND_Y: real := 180.0
  const PLAYER_X: real := 54.0
  const PLAYER_WIDTH: real := 34.0
  const PLAYER_HEIGHT: real := 34.0
  const PLAYER_CROUCH_WIDTH: real := 34.0
  const PLAYER_CROUCH_HEIGHT: real := 24.0
  const GRAVITY: real := 0.58
  const JUMP_VELOCITY: real := 10.6
  const SPEED_DROP_ACCEL: real := 0.95
  const MAX_FALL_VELOCITY: real := -16.0
  const FIXED_TIMESTEP_MS: real := 1000.0 / 60.0
  const MAX_FRAME_DELTA_MS: real := 100.0
  const BASE_SPEED: real := 5.0
  const MAX_SPEED: real := 8.1
  const SCORE_PER_TICK: real := 14.0 / 60.0
  const FLYING_CLEARANCES: seq<real> := [18.0, 34.0, 50.0]
  const ROTATION_FRAMES_PER_JUMP: real := 40.0
  /** Obstacles enter at the right edge of the playfield plus ten pixels. */
  const SPAWN_X: real := GAME_WIDTH + 10.0
  /** An obstacle is dropped once its right edge is 20 pixels past the left edge. */
  const DESPAWN_EDGE: real := -20.0
  const INITIAL_SPAWN_TIMER: real := 900.0
  const RUN_SPAWN_TIMER: real := 800.0

  predicate InUnit(r: real) {
    0.0 <= r < 1.0
  }

  /** The Math.random() draws a spawn may consume, in the order the source
   *  makes them: ground or flying, width, height, flying lane, next delay. */
  datatype SpawnDraws = SpawnDraws(kind: real, width: real, height: real, lane: real, delay: real)

  predicate ValidDraws(d: SpawnDraws) {
    InUnit(d.kind) && InUnit(d.width) && InUnit(d.height) && InUnit(d.lane) && InUnit(d.delay)
  }

  /** The rotation easing 1 - (1 - p)^1.65 is left abstract: any curve that
   *  maps progress in [0, 1] into [0, 1]. */
  ghost predicate EaseInUnit(ease: real -> real) {
    forall p :: 0.0 <= p <= 1.0 ==> 0.0 <= ease(p) <= 1.0
  }

  /** Vertical state after one step of gravity. */
  datatype Motion = Motion(velocity: real, lift: real)

  /** Gravity, fast-fall while crouching in the air, the fall-speed clamp and
   *  ground contact. The result never falls faster than the clamp, never goes
   *  below the ground, and standing on the ground means standing still. Below
   *  the clamp and in the air, velocity drops by gravity plus the fast-fall
   *  acceleration exactly when crouching in the air. */
  function Fall(velocity: real, lift: real, crouch: bool): (m: Motion)
    requires lift >= 0.0
    ensures m.velocity >= MAX_FALL_VELOCITY && m.lift >= 0.0
    ensures m.lift == 0.0 ==> m.velocity == 0.0
    ensures m.lift > 0.0 ==> m.lift == lift + m.velocity
    ensures m.lift > 0.0 && m.velocity > MAX_FALL_VELOCITY ==>
      m.velocity == velocity - GRAVITY - (if crouch && lift > 0.0 then SPEED_DROP_ACCEL else 0.0)
  {
    var accelerated := velocity - GRAVITY;
    var dropped := if crouch && lift > 0.0 then accelerated - SPEED_DROP_ACCEL else accelerated;
    var clamped := Max(dropped, MAX_FALL_VELOCITY);
    var newLift := Max(0.0, lift + clamped);
    Motion(if newLift == 0.0 && clamped < 0.0 then 0.0 else clamped, newLift)
  }

  /** Crouching on the ground changes nothing; crouching in the air never
   *  leaves the player higher. */
  lemma FastFallOnlyInTheAir(velocity: real, lift: real)
    requires lift >= 0.0
    ensures lift == 0.0 ==> Fall(velocity, lift, true) == Fall(velocity, lift, false)
    ensures Fall(velocity, lift, true).lift <= Fall(velocity, lift, false).lift
  {
  }

  /** Horizontal speed grows with the score until it reaches the cap at 682. */
  function Speed(score: real): (s: real)
    requires score >= 0.0
    ensures BASE_SPEED <= s <= MAX_SPEED
    ensures score <= 682.0 ==> s == BASE_SPEED + score / 220.0
    ensures score >= 682.0 ==> s == MAX_SPEED
  {
    Min(BASE_SPEED + score / 220.0, MAX_SPEED)
  }

  /** Delay until the next spawn: shorter as the score grows, never below 520. */
  function SpawnDelay(score: real, r: real): (delay: real)
    requires score >= 0.0 && InUnit(r)
    ensures 520.0 <= delay < 1400.0
    ensures score >= 130.0 ==> delay < 1140.0
  {
    780.0 + r * 620.0 - Min(score * 2.0, 260.0)
  }

  /** Flying obstacles hover 18, 34 or 50 pixels above the ground. */
  function Clearance(r: real): (c: real)
    requires InUnit(r)
    ensures c in {18.0, 34.0, 50.0}
  {
    var i := (r * 3.0).Floor;
    assert 0 <= i < 3;
    FLYING_CLEARANCES[i]
  }

  /** The shapes the spawner produces: ground obstacles stand on the ground,
   *  20 to 36 wide and 26 to 52 high; flying ones are 34 by 22 and hover
   *  at one of the three clearances. */
  predicate WellFormed(o: Obstacle) {
    match o.kind
    case Ground => o.y + o.height == GROUND_Y && 20.0 <= o.width < 36.0 && 26.0 <= o.height < 52.0
    case Flying => o.width == 34.0 && o.height == 22.0 && GROUND_Y - (o.y + o.height) in {18.0, 34.0, 50.0}
  }

  function Spawn(id: int, d: SpawnDraws): (o: Obstacle)
    requires ValidDraws(d)
    ensures WellFormed(o) && o.id == id && o.x == SPAWN_X
    ensures o.kind == Ground <==> d.kind > 0.35
  {
    var ground := d.kind > 0.35;
    var width := if ground then 20.0 + d.width * 16.0 else 34.0;
    var height := if ground then 26.0 + d.height * 26.0 else 22.0;
    var clearance := Clearance(d.lane);
    var y := if ground then GROUND_Y - height else GROUND_Y - height - clearance;
    Obstacle(id, if ground then Ground else Flying, SPAWN_X, y, width, height)
  }

  /** One step left: only x changes. */
  function Shift(o: Obstacle, speed: real): (r: Obstacle)
    ensures r.id == o.id && r.x == o.x - speed
    ensures WellFormed(r) == WellFormed(o)
  {
    o.(x := o.x - speed)
  }

  /** A shifted obstacle's hit box is its old hit box moved left by the
   *  same distance. */
  lemma ShiftMovesHitbox(o: Obstacle, speed: real)
    ensures Hitbox(Shift(o, speed)) == Hitbox(o).(x := Hitbox(o).x - speed)
  {
  }

  predicate OnScreen(o: Obstacle) {
    o.x + o.width > DESPAWN_EDGE
  }

  /** Moves every obstacle left by `speed` and keeps those still on screen. */
  function Scroll(obstacles: seq<Obstacle>, speed: real): (r: seq<Obstacle>)
    ensures |r| <= |obstacles|
  {
    if obstacles == [] then []
    else
      var moved := Shift(obstacles[0], speed);
      (if OnScreen(moved) then [moved] else []) + Scroll(obstacles[1..], speed)
  }

  /** Scroll keeps exactly the moved obstacles that are still on screen, and
   *  changes nothing about them but x. */
  lemma {:induction false} ScrollMembers(obstacles: seq<Obstacle>, speed: real, o: Obstacle)
    ensures o in Scroll(obstacles, speed) <==> OnScreen(o) && o.(x := o.x + speed) in obstacles
    decreases |obstacles|
  {
    if obstacles != [] {
      ScrollMembers(obstacles[1..], speed, o);
      assert obstacles == [obstacles[0]] + obstacles[1..];
      assert Shift(obstacles[0], speed) == o <==> obstacles[0] == o.(x := o.x + speed);
    }
  }

  /** Obstacles in creation order: ids and positions both strictly increase
   *  along the list (the newest is the furthest right). */
  predicate Ordered(obstacles: seq<Obstacle>) {
    forall i, j :: 0 <= i < j < |obstacles| ==> obstacles[i].id < obstacles[j].id && obstacles[i].x < obstacles[j].x
  }

  /** Scroll preserves creation order. */
  lemma {:induction false} ScrollOrdered(obstacles: seq<Obstacle>, speed: real)
    requires Ordered(obstacles)
    ensures Ordered(Scroll(obstacles, speed))
    decreases |obstacles|
  {
    if obstacles != [] {
      var rest := Scroll(obstacles[1..], speed);
      assert Ordered(obstacles[1..]) by {
        forall i, j | 0 <= i < j < |obstacles| - 1
          ensures obstacles[1..][i].id < obstacles[1..][j].id && obstacles[1..][i].x < obstacles[1..][j].x
        {
          assert obstacles[1..][i] == obstacles[i + 1] && obstacles[1..][j] == obstacles[j + 1];
        }
      }
      ScrollOrdered(obstacles[1..], speed);
      var moved := Shift(obstacles[0], speed);
      if OnScreen(moved) {
        forall k | 0 <= k < |rest|
          ensures moved.id < rest[k].id && moved.x < rest[k].x
        {
          ScrollMembers(obstacles[1..], speed, rest[k]);
          var orig := rest[k].(x := rest[k].x + speed);
          var j :| 0 <= j < |obstacles[1..]| && obstacles[1..][j] == orig;
          assert obstacles[j + 1] == orig;
        }
        PrependOrdered(moved, rest);
      }
    }
  }

  /** An obstacle older and further left than every obstacle of an ordered
   *  list can go in front of it. */
  lemma PrependOrdered(head: Obstacle, rest: seq<Obstacle>)
    requires Ordered(rest)
    requires forall k :: 0 <= k < |rest| ==> head.id < rest[k].id && head.x < rest[k].x
    ensures Ordered([head] + rest)
  {
    var r := [head] + rest;
    forall i, j | 0 <= i < j < |r|
      ensures r[i].id < r[j].id && r[i].x < r[j].x
    {
      assert r[j] == rest[j - 1];
      if i > 0 {
        assert r[i] == rest[i - 1];
      }
    }
  }

  /** The well-formed obstacles in flight, all created before `nextId` and all
   *  already moved left of the spawn column by at least the base speed. */
  predicate InFlight(obstacles: seq<Obstacle>, nextId: int) {
    && Ordered(obstacles)
    && forall o :: o in obstacles ==> WellFormed(o) && 0 <= o.id < nextId && o.x <= SPAWN_X - BASE_SPEED
  }

  /** Spawning (at most one obstacle) and then scrolling keeps the obstacles
   *  in flight. */
  lemma SpawnAndScrollInFlight(obstacles: seq<Obstacle>, nextId: nat, spawned: seq<Obstacle>, speed: real)
    requires InFlight(obstacles, nextId)
    requires spawned == [] || (|spawned| == 1 && WellFormed(spawned[0]) && spawned[0].id == nextId && spawned[0].x == SPAWN_X)
    requires speed >= BASE_SPEED
    ensures InFlight(Scroll(obstacles + spawned, speed), nextId + |spawned|)
  {
    var all := obstacles + spawned;
    assert Ordered(all);
    ScrollOrdered(all, speed);
    forall o | o in Scroll(all, speed)
      ensures WellFormed(o) && 0 <= o.id < nextId + |spawned| && o.x <= SPAWN_X - BASE_SPEED
    {
      ScrollMembers(all, speed, o);
      var orig := o.(x := o.x + speed);
      assert orig in obstacles || orig in spawned;
      if orig in spawned {
        assert orig == spawned[0];
      }
      assert o.id == orig.id && o.x == orig.x - speed && WellFormed(o) == WellFormed(orig);
    }
  }

  /** The player's box: crouching lowers it to 24 pixels. */
  function PlayerBox(crouch: bool, lift: real): (r: Rect)
    ensures r.x == PLAYER_X && r.width == 34.0
    ensures r.y + r.height == GROUND_Y - lift
    ensures r.height == if crouch then PLAYER_CROUCH_HEIGHT else PLAYER_HEIGHT
  {
    var h := if crouch then PLAYER_CROUCH_HEIGHT else PLAYER_HEIGHT;
    var w := if crouch then PLAYER_CROUCH_WIDTH else PLAYER_WIDTH;
    Rect(PLAYER_X, GROUND_Y - h - lift, w, h)
  }

  /** Whether the player hits any obstacle, scanning the list from the front
   *  and stopping at the first hit. The scan finds a hit exactly when some
   *  obstacle collides; when the player box is apart from every hit box the
   *  scan never finds one. */
  function AnyHit(player: Rect, obstacles: seq<Obstacle>): (hit: bool)
    ensures hit <==> exists i :: 0 <= i < |obstacles| && IsColliding(player, obstacles[i])
    ensures (forall i :: 0 <= i < |obstacles| ==> Apart(player, Hitbox(obstacles[i]))) ==> !hit
    decreases |obstacles|
  {
    if obstacles == [] then false
    else if IsColliding(player, obstacles[0]) then true
    else
      var rest := AnyHit(player, obstacles[1..]);
      assert rest ==> exists i :: 0 <= i < |obstacles| && IsColliding(player, obstacles[i]) by {
        if rest {
          var j :| 0 <= j < |obstacles[1..]| && IsColliding(player, obstacles[1..][j]);
          assert IsColliding(player, obstacles[j + 1]);
        }
      }
      assert (exists i :: 0 <= i < |obstacles| && IsColliding(player, obstacles[i])) ==> rest by {
        if exists i :: 0 <= i < |obstacles| && IsColliding(player, obstacles[i]) {
          var i :| 0 <= i < |obstacles| && IsColliding(player, obstacles[i]);
          assert i > 0 && obstacles[1..][i - 1] == obstacles[i];
        }
      }
      rest
  }

  /** A hit against a list made of two parts is a hit against one of them:
   *  the collision test does not depend on where the list is cut. */
  lemma {:induction false} AnyHitAppend(player: Rect, front: seq<Obstacle>, back: seq<Obstacle>)
    ensures AnyHit(player, front + back) == (AnyHit(player, front) || AnyHit(player, back))
    decreases |front|
  {
    if front != [] {
      assert (front + back)[0] == front[0];
      assert (front + back)[1..] == front[1..] + back;
      AnyHitAppend(player, front[1..], back);
    } else {
      assert front + back == back;
    }
  }

  lemma ScaleInRange(span: real, e: real)
    requires span >= 0.0 && 0.0 <= e <= 1.0
    ensures 0.0 <= span * e <= span
  {
  }

  /** The rotation refs: the drawn angle, the angle at the last launch, the
   *  target and the frames spent in the air since the launch. */
  datatype Spin = Spin(angle: real, start: real, target: real, progress: nat)

  /** The keys currently held, as far as the engine sees them. */
  datatype Controls = Controls(crouch: bool, jumpHeld: bool)

  /** The last frame timestamp and the unspent time budget. */
  datatype Clock = Clock(lastFrameTime: real, accumulator: real)

  /** The motion and rotation after one step's physics, from `body` and
   *  `spin` before it. A grounded player (after gravity) with the jump
   *  held relaunches in the same step: velocity 10.6, lift 10.6, a new
   *  quarter turn from the current angle, one frame of it done. Otherwise
   *  the motion is `Fall`, and the rotation advances one frame in the air
   *  and waits on the ground. In the air the angle is the launch angle
   *  plus the eased share of the quarter turn; on the ground the player
   *  stands still at the target angle. */
  ghost predicate MoveStep(body: Motion, spin: Spin, controls: Controls, ease: real -> real, body': Motion, spin': Spin)
    requires body.lift >= 0.0
  {
    var m := Fall(body.velocity, body.lift, controls.crouch);
    var jumped := m.lift == 0.0 && controls.jumpHeld;
    && (jumped ==>
         && body' == Motion(JUMP_VELOCITY, JUMP_VELOCITY)
         && spin'.start == spin.angle && spin'.target == spin.target + 90.0
         && spin'.progress == 1)
    && (!jumped ==>
         && body' == m
         && spin'.start == spin.start && spin'.target == spin.target
         && spin'.progress == if m.lift > 0.0 then spin.progress + 1 else spin.progress)
    && (body'.lift > 0.0 ==>
         spin'.angle == spin'.start + (spin'.target - spin'.start) * ease(Min(spin'.progress as real / ROTATION_FRAMES_PER_JUMP, 1.0)))
    && (body'.lift == 0.0 ==> body'.velocity == 0.0 && spin'.angle == spin'.target)
  }

  /** The per-run values one fixed step changes: the player's motion and
   *  rotation, the spawn countdown, the obstacles, the next obstacle id and
   *  the score. */
  datatype World = World(body: Motion, spin: Spin, spawnTimer: real, obstacles: seq<Obstacle>, nextId: nat, score: real)

  /** One fixed step from `w` to `w'` with the keys `controls`, spawn draws
   *  `d` and rotation ease `ease`: the physics of `MoveStep`; the spawn
   *  countdown, which on running out appends an obstacle with the next id
   *  and draws a new delay; the scroll of every obstacle at the speed of the
   *  score so far; `hit` is the collision of the moved player with the moved
   *  obstacles, and only a step without a hit scores 14/60. */
  ghost predicate TickStep(w: World, controls: Controls, d: SpawnDraws, ease: real -> real, w': World, hit: bool) {
    && ValidDraws(d) && w.body.lift >= 0.0 && w.score >= 0.0
    && MoveStep(w.body, w.spin, controls, ease, w'.body, w'.spin)
    && (var spawned := w.spawnTimer - FIXED_TIMESTEP_MS <= 0.0;
        && w'.nextId == w.nextId + (if spawned then 1 else 0)
        && w'.spawnTimer == (if spawned then SpawnDelay(w.score, d.delay) else w.spawnTimer - FIXED_TIMESTEP_MS)
        && w'.obstacles == Scroll(w.obstacles + (if spawned then [Spawn(w.nextId, d)] else []), Speed(w.score)))
    && hit == AnyHit(PlayerBox(controls.crouch, w'.body.lift), w'.obstacles)
    && w'.score == w.score + (if hit then 0.0 else SCORE_PER_TICK)
  }

  /** The k-th step of `trace` is a `TickStep` with draws `draw(k)`, and it
   *  hits exactly when it is the last step and the frame is `over`. */
  ghost predicate StepAt(trace: seq<World>, k: nat, controls: Controls, draw: nat -> SpawnDraws, ease: real -> real, over: bool)
    requires k + 1 < |trace|
  {
    TickStep(trace[k], controls, draw(k), ease, trace[k + 1], over && k == |trace| - 2)
  }

  /** `trace` lists the values across the steps of one frame: each
   *  neighbouring pair is one `TickStep`, the k-th with draws `draw(k)`.
   *  No step but the last hits, and the last hits exactly when `over`. */
  ghost predicate Ticks(trace: seq<World>, controls: Controls, draw: nat -> SpawnDraws, ease: real -> real, over: bool) {
    && |trace| >= 1
    && forall k: nat :: k + 1 < |trace| ==> StepAt(trace, k, controls, draw, ease, over)
  }

  /** A trace without a hit, extended by one more step, is a trace that is
   *  over exactly when that step hits. */
  lemma ExtendTrace(trace: seq<World>, controls: Controls, draw: nat -> SpawnDraws, ease: real -> real,
                    last: World, d: SpawnDraws, w: World, hit: bool)
    requires Ticks(trace, controls, draw, ease, false)
    requires trace[|trace| - 1] == last && d == draw(|trace| - 1)
    requires TickStep(last, controls, d, ease, w, hit)
    ensures Ticks(trace + [w], controls, draw, ease, hit)
  {
    var t := trace + [w];
    forall k: nat | k + 1 < |t|
      ensures StepAt(t, k, controls, draw, ease, hit)
    {
      if k + 1 < |trace| {
        assert StepAt(trace, k, controls, draw, ease, false);
        assert t[k] == trace[k] && t[k + 1] == trace[k + 1];
      }
    }
  }

  /** The fixed-step loop of one frame, from `w` with `budget` ms to spend
   *  to `w'` with `left` unspent: `trace` runs `ticks` steps without a hit,
   *  and then the hitting step when `over`. Each completed step spends
   *  1000/60 ms and scores 14/60. The loop stops at a hit, with the player
   *  box on an obstacle and a whole step still unspent, or once less than a
   *  step is left. */
  ghost predicate FrameSteps(w: World, controls: Controls, draw: nat -> SpawnDraws, ease: real -> real, budget: real,
                             w': World, over: bool, left: real, ticks: nat, trace: seq<World>) {
    && |trace| == ticks + (if over then 2 else 1)
    && trace[0] == w && trace[|trace| - 1] == w'
    && Ticks(trace, controls, draw, ease, over)
    && w'.score == w.score + ticks as real * SCORE_PER_TICK
    && left == budget - ticks as real * FIXED_TIMESTEP_MS
    && (over ==> left >= FIXED_TIMESTEP_MS && AnyHit(PlayerBox(controls.crouch, w'.body.lift), w'.obstacles))
    && (!over ==> left < FIXED_TIMESTEP_MS)
  }

  /** The isRunning/isGameOver pair: never both set. */
  datatype Phase = Ready | Running | Over

  class Runner {
    var body: Motion
    var spin: Spin
    var score: real
    var spawnTimer: real
    var obstacles: seq<Obstacle>
    var nextId: nat
    var controls: Controls
    var clock: Clock
    var phase: Phase
    var best: real
    /** Quarter turns requested since the page opened. */
    ghost var turns: nat

    /** Lift is never negative, velocity never below the fall clamp, the score
     *  never negative; the rotation lies between its value at the last launch
     *  and the target, a whole number of quarter turns; the obstacles are in
     *  flight. */
    ghost predicate Valid()
      reads this`body, this`spin, this`turns, this`score, this`obstacles, this`nextId
    {
      && body.lift >= 0.0 && body.velocity >= MAX_FALL_VELOCITY && score >= 0.0
      && spin.start <= spin.angle <= spin.target
      && spin.target == 90.0 * turns as real
      && InFlight(obstacles, nextId)
    }

    /** The values one fixed step changes. */
    ghost function State(): World
      reads this`body, this`spin, this`spawnTimer, this`obstacles, this`nextId, this`score
    {
      World(body, spin, spawnTimer, obstacles, nextId, score)
    }

    /** The page as it loads, with the best score read from local storage. */
    constructor (storedBest: real)
      ensures Valid() && phase == Ready && best == storedBest
      ensures obstacles == [] && score == 0.0 && body == Motion(0.0, 0.0) && spawnTimer == INITIAL_SPAWN_TIMER
    {
      body := Motion(0.0, 0.0);
      spin := Spin(0.0, 0.0, 0.0, 0);
      score := 0.0;
      spawnTimer := INITIAL_SPAWN_TIMER;
      obstacles, nextId := [], 0;
      controls := Controls(false, false);
      clock := Clock(0.0, 0.0);
      phase := Ready;
      best := storedBest;
      turns := 0;
    }

    /** Resets every per-run value and starts running. The obstacle id
     *  counter and the best score carry over. */
    method StartGame()
      modifies this`body, this`spin, this`turns, this`score, this`spawnTimer, this`obstacles
      modifies this`controls, this`clock, this`phase
      ensures Valid() && phase == Running
      ensures body == Motion(0.0, 0.0) && spin == Spin(0.0, 0.0, 0.0, 0)
      ensures score == 0.0 && spawnTimer == RUN_SPAWN_TIMER && obstacles == []
      ensures controls == Controls(false, false) && clock == Clock(0.0, 0.0)
    {
      body := Motion(0.0, 0.0);
      score := 0.0;
      spawnTimer := RUN_SPAWN_TIMER;
      obstacles := [];
      controls := Controls(false, false);
      spin := Spin(0.0, 0.0, 0.0, 0);
      turns := 0;
      phase := Running;
      clock := Clock(0.0, 0.0);
    }

    /** Launch: upward velocity, a new quarter turn eased from the current
     *  rotation. */
    method ApplyJumpImpulse()
      requires Valid()
      modifies this`body, this`spin, this`turns
      ensures Valid()
      ensures body == old(body).(velocity := JUMP_VELOCITY)
      ensures spin == Spin(old(spin.angle), old(spin.angle), old(spin.target) + 90.0, 0)
      ensures turns == old(turns) + 1
    {
      body := body.(velocity := JUMP_VELOCITY);
      spin := Spin(spin.angle, spin.angle, spin.target + 90.0, 0);
      turns := turns + 1;
    }

    /** A jump press: starts a run (with a jump) when none is running,
     *  otherwise jumps only from the ground. */
    method TriggerJump()
      requires Valid()
      modifies this`body, this`spin, this`turns, this`score, this`spawnTimer, this`obstacles
      modifies this`controls, this`clock, this`phase
      ensures Valid() && phase == Running
      ensures old(phase) != Running ==>
        && body == Motion(JUMP_VELOCITY, 0.0) && spin == Spin(0.0, 0.0, 90.0, 0)
        && score == 0.0 && spawnTimer == RUN_SPAWN_TIMER && obstacles == []
        && controls == Controls(false, false) && clock == Clock(0.0, 0.0)
      ensures old(phase) == Running && old(body.lift) == 0.0 ==>
        && body == old(body).(velocity := JUMP_VELOCITY)
        && spin == Spin(old(spin.angle), old(spin.angle), old(spin.target) + 90.0, 0)
      ensures old(phase) == Running && old(body.lift) > 0.0 ==> body == old(body) && spin == old(spin)
      ensures old(phase) == Running ==>
        && body.lift == old(body.lift) && score == old(score) && obstacles == old(obstacles)
        && controls == old(controls) && clock == old(clock) && spawnTimer == old(spawnTimer)
    {
      if phase != Running {
        StartGame();
        ApplyJumpImpulse();
        return;
      }
      if body.lift == 0.0 {
        ApplyJumpImpulse();
      }
    }

    /** Gravity, fast-fall, the fall clamp and ground contact, step by step
     *  as the frame loop does them. */
    method Integrate()
      requires Valid()
      modifies this`body
      ensures Valid()
      ensures body == Fall(old(body.velocity), old(body.lift), controls.crouch)
    {
      var velocity := body.velocity - GRAVITY;
      if controls.crouch && body.lift > 0.0 {
        velocity := velocity - SPEED_DROP_ACCEL;
      }
      velocity := Max(velocity, MAX_FALL_VELOCITY);
      var lift := Max(0.0, body.lift + velocity);
      if lift == 0.0 && velocity < 0.0 {
        velocity := 0.0;
      }
      body := Motion(velocity, lift);
    }

    /** The quarter turn: in the air the angle eases from the launch angle
     *  towards the target over 40 frames; on the ground it snaps to the
     *  target. */
    method Rotate(ease: real -> real)
      requires Valid() && EaseInUnit(ease)
      modifies this`spin
      ensures Valid()
      ensures spin.start == old(spin.start) && spin.target == old(spin.target)
      ensures body.lift > 0.0 ==>
        && spin.progress == old(spin.progress) + 1
        && spin.angle == spin.start + (spin.target - spin.start) * ease(Min(spin.progress as real / ROTATION_FRAMES_PER_JUMP, 1.0))
      ensures body.lift <= 0.0 ==> spin.progress == old(spin.progress) && spin.angle == spin.target
    {
      if body.lift > 0.0 {
        var progress := spin.progress + 1;
        var eased := ease(Min(progress as real / ROTATION_FRAMES_PER_JUMP, 1.0));
        var span := spin.target - spin.start;
        ScaleInRange(span, eased);
        var angle := spin.start + span * eased;
        assert spin.start <= angle <= spin.target;
        spin := Spin(angle, spin.start, spin.target, progress);
      } else {
        spin := spin.(angle := spin.target);
      }
    }

    /** Gravity and ground contact, the buffered jump (jump held on the
     *  ground launches within the same step) and the rotation ease. */
    method Move(ease: real -> real) returns (jumped: bool)
      requires Valid() && EaseInUnit(ease)
      modifies this`body, this`spin, this`turns
      ensures Valid()
      ensures jumped == (Fall(old(body.velocity), old(body.lift), controls.crouch).lift == 0.0 && controls.jumpHeld)
      ensures MoveStep(old(body), old(spin), controls, ease, body, spin)
    {
      Integrate();
      jumped := body.lift == 0.0 && controls.jumpHeld;
      if jumped {
        ApplyJumpImpulse();
        body := body.(lift := Max(0.0, body.lift + body.velocity));
      }
      Rotate(ease);
    }

    /** The spawn countdown and the obstacle scroll at the score's speed. */
    method Advance(d: SpawnDraws)
      requires Valid() && ValidDraws(d)
      modifies this`spawnTimer, this`obstacles, this`nextId
      ensures Valid()
      ensures var spawned := old(spawnTimer) - FIXED_TIMESTEP_MS <= 0.0;
        && nextId == old(nextId) + (if spawned then 1 else 0)
        && spawnTimer == (if spawned then SpawnDelay(score, d.delay) else old(spawnTimer) - FIXED_TIMESTEP_MS)
        && obstacles == Scroll(old(obstacles) + (if spawned then [Spawn(old(nextId), d)] else []), Speed(score))
    {
      var speed := Speed(score);
      spawnTimer := spawnTimer - FIXED_TIMESTEP_MS;
      var spawned: seq<Obstacle> := [];
      if spawnTimer <= 0.0 {
        spawned := [Spawn(nextId, d)];
        spawnTimer := SpawnDelay(score, d.delay);
      }
      SpawnAndScrollInFlight(obstacles, nextId, spawned, speed);
      obstacles := Scroll(obstacles + spawned, speed);
      nextId := nextId + |spawned|;
    }

    /** One fixed step of 1000/60 ms (the body of the frame loop): physics,
     *  spawning and scrolling at the speed of the score so far, then the
     *  collision test against the moved obstacles. A hit adds no score; a
     *  step without one adds 14/60. */
    method Tick(d: SpawnDraws, ease: real -> real) returns (hit: bool)
      requires Valid() && ValidDraws(d) && EaseInUnit(ease)
      modifies this`body, this`spin, this`turns, this`spawnTimer, this`obstacles, this`nextId, this`score
      ensures Valid()
      ensures TickStep(old(State()), controls, d, ease, State(), hit)
    {
      var _ := Move(ease);
      Advance(d);
      hit := AnyHit(PlayerBox(controls.crouch, body.lift), obstacles);
      if !hit {
        score := score + SCORE_PER_TICK;
      }
    }

    /** The step budget a frame at `timestamp` starts with: what was left
     *  over plus the time since the last frame, capped at 100 ms (the first
     *  frame of a run counts no elapsed time). */
    static function FrameBudget(clock: Clock, timestamp: real): (b: real)
      ensures b <= clock.accumulator + MAX_FRAME_DELTA_MS
      ensures clock.lastFrameTime == 0.0 ==> b == clock.accumulator
      ensures clock.lastFrameTime != 0.0 && timestamp - clock.lastFrameTime <= MAX_FRAME_DELTA_MS ==>
        b == clock.accumulator + (timestamp - clock.lastFrameTime)
    {
      var last := if clock.lastFrameTime == 0.0 then timestamp else clock.lastFrameTime;
      clock.accumulator + Min(timestamp - last, MAX_FRAME_DELTA_MS)
    }

    /** The fixed-step loop of a frame: ticks run while a whole step of
     *  `budget` is left, and a hit stops the loop before its step is
     *  spent. `draw(k)` are the spawn draws of the k-th tick. */
    method RunSteps(budget: real, draw: nat -> SpawnDraws, ease: real -> real)
      returns (over: bool, left: real, ghost ticks: nat, ghost trace: seq<World>)
      requires Valid() && phase == Running && EaseInUnit(ease)
      requires forall k :: ValidDraws(draw(k))
      modifies this`body, this`spin, this`turns, this`spawnTimer, this`obstacles, this`nextId, this`score
      ensures Valid()
      ensures FrameSteps(old(State()), controls, draw, ease, budget, State(), over, left, ticks, trace)
    {
      over := false;
      left := budget;
      ticks := 0;
      trace := [State()];
      var k: nat := 0;
      while !over && left >= FIXED_TIMESTEP_MS
        invariant Valid()
        invariant k == ticks && |trace| == ticks + (if over then 2 else 1)
        invariant trace[0] == old(State()) && trace[|trace| - 1] == State()
        invariant Ticks(trace, controls, draw, ease, over)
        invariant score == old(score) + ticks as real * SCORE_PER_TICK
        invariant left == budget - ticks as real * FIXED_TIMESTEP_MS
        invariant over ==> left >= FIXED_TIMESTEP_MS && AnyHit(PlayerBox(controls.crouch, body.lift), obstacles)
        decreases !over, left.Floor
      {
        ghost var last := State();
        var hit := Tick(draw(k), ease);
        ExtendTrace(trace, controls, draw, ease, last, draw(k), State(), hit);
        trace := trace + [State()];
        if hit {
          over := true;
        } else {
          ticks := ticks + 1;
          k := k + 1;
          left := left - FIXED_TIMESTEP_MS;
        }
      }
    }

    /** One animation frame at `timestamp`: the elapsed time, capped at
     *  100 ms, feeds the fixed-step budget, and ticks run while a whole step
     *  is left. A hit ends the run, releases the crouch and raises the best
     *  score to the floored final score when that is higher. `draw(k)` are
     *  the spawn draws of the k-th tick of this frame. */
    method Frame(timestamp: real, draw: nat -> SpawnDraws, ease: real -> real) returns (over: bool, ghost ticks: nat, ghost trace: seq<World>)
      requires Valid() && phase == Running && EaseInUnit(ease)
      requires forall k :: ValidDraws(draw(k))
      modifies this`body, this`spin, this`turns, this`spawnTimer, this`obstacles, this`nextId, this`score
      modifies this`controls, this`clock, this`phase, this`best
      ensures Valid()
      ensures over <==> phase == Over
      ensures !over ==> phase == Running
      ensures FrameSteps(old(State()), old(controls), draw, ease, FrameBudget(old(clock), timestamp),
                         State(), over, clock.accumulator, ticks, trace)
      ensures over ==> best == Max(old(best), score.Floor as real) && !controls.crouch
      ensures !over ==> best == old(best) && controls == old(controls)
      ensures clock.lastFrameTime == timestamp
      ensures best >= old(best)
    {
      var budget := FrameBudget(clock, timestamp);
      var left;
      over, left, ticks, trace := RunSteps(budget, draw, ease);
      clock := Clock(timestamp, left);

      if over {
        EndRun();
      }
    }

    /** A hit ends the run: the crouch is released and the best score rises
     *  to the floored final score when that is higher. */
    method EndRun()
      modifies this`phase, this`controls, this`best
      ensures phase == Over && controls == old(controls).(crouch := false)
      ensures best == Max(old(best), score.Floor as real) && best >= score.Floor as real
    {
      phase := Over;
      controls := controls.(crouch := false);
      best := Max(best, score.Floor as real);
    }

    /** Jump key pressed (not a key repeat): holds the jump and triggers it.
     *  Starting a new run clears the held flag again. */
    method PressJump()
      requires Valid()
      modifies this`body, this`spin, this`turns, this`score, this`spawnTimer, this`obstacles
      modifies this`controls, this`clock, this`phase
      ensures Valid() && phase == Running
      ensures controls.jumpHeld <==> old(phase) == Running
      ensures old(phase) != Running ==>
        && body == Motion(JUMP_VELOCITY, 0.0) && spin == Spin(0.0, 0.0, 90.0, 0)
        && score == 0.0 && spawnTimer == RUN_SPAWN_TIMER && obstacles == []
        && controls == Controls(false, false) && clock == Clock(0.0, 0.0)
      ensures old(phase) == Running && old(body.lift) == 0.0 ==>
        && body == old(body).(velocity := JUMP_VELOCITY)
        && spin == Spin(old(spin.angle), old(spin.angle), old(spin.target) + 90.0, 0)
      ensures old(phase) == Running && old(body.lift) > 0.0 ==> body == old(body) && spin == old(spin)
      ensures old(phase) == Running ==>
        && score == old(score) && obstacles == old(obstacles) && spawnTimer == old(spawnTimer)
        && controls == old(controls).(jumpHeld := true) && clock == old(clock)
    {
      controls := controls.(jumpHeld := true);
      TriggerJump();
    }

    /** Crouch key pressed: outside a run a fresh press starts one (without
     *  crouching); during a run it crouches. */
    method PressCrouch(repeat: bool)
      requires Valid()
      modifies this`body, this`spin, this`turns, this`score, this`spawnTimer, this`obstacles
      modifies this`controls, this`clock, this`phase
      ensures Valid()
      ensures old(phase) == Running ==>
        && controls == old(controls).(crouch := true) && phase == Running
        && State() == old(State()) && clock == old(clock)
      ensures old(phase) != Running && !repeat ==>
        && phase == Running && body == Motion(0.0, 0.0) && spin == Spin(0.0, 0.0, 0.0, 0)
        && score == 0.0 && spawnTimer == RUN_SPAWN_TIMER && obstacles == [] && nextId == old(nextId)
        && controls == Controls(false, false) && clock == Clock(0.0, 0.0)
      ensures old(phase) != Running && repeat ==>
        && phase == old(phase) && controls == old(controls) && State() == old(State()) && clock == old(clock)
    {
      if phase != Running {
        if !repeat {
          StartGame();
        }
      } else {
        controls := controls.(crouch := true);
      }
    }

    /** Jump key released: ends jump buffering. */
    method ReleaseJump()
      modifies this`controls
      ensures controls == old(controls).(jumpHeld := false)
    {
      controls := controls.(jumpHeld := false);
    }

    /** Crouch key released: stands up during a run. */
    method ReleaseCrouch()
      modifies this`controls
      ensures controls.crouch == (old(controls.crouch) && phase != Running)
      ensures controls.jumpHeld == old(controls.jumpHeld)
    {
      if phase == Running {
        controls := controls.(crouch := false);
      }
    }
  }

  /** A fresh run with no input and no obstacle: up to 47 ticks pass before
   *  the first spawn (800 ms at 1000/60 ms a tick), the player stays on the
   *  ground and each tick scores 14/60. */
  method IdleRun(n: nat) returns (lift: real, score: real)
    requires n <= 47
    ensures lift == 0.0
    ensures score == n as real * SCORE_PER_TICK
  {
    var runner := new Runner(0.0);
    runner.StartGame();
    var identity := (p: real) => p;
    var i := 0;
    while i < n
      invariant 0 <= i <= n
      invariant runner.Valid()
      invariant runner.obstacles == [] && runner.body == Motion(0.0, 0.0)
      invariant runner.controls == Controls(false, false)
      invariant runner.spawnTimer == RUN_SPAWN_TIMER - i as real * FIXED_TIMESTEP_MS
      invariant runner.score == i as real * SCORE_PER_TICK
    {
      var hit := runner.Tick(SpawnDraws(0.0, 0.0, 0.0, 0.0, 0.0), identity);
      i := i + 1;
    }
    lift, score := runner.body.lift, runner.score;
  }
}
