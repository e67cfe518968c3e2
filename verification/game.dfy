/** The Space Defender mini-game (`SpaceDefender`): its phases, scoring,
    lives and level rules, the object filters of one animation frame, the
    collision test, and the leaderboard fed by `new-highscore`. Positions
    are reals; random choices (enemy spawning, particle velocities, power-up
    drops) are parameters or left out. */
module Game {
  import opened Prelude
  import opened Entities
  import opened Protocol

  /** `gameState`: 'idle', 'playing', 'paused', 'gameover'. */
  datatype Phase = Idle | Playing | Paused | Over

  /** The geometry `isColliding` reads. */
  datatype Box = Box(x: real, y: real, width: real, height: real)

  datatype Bullet = Bullet(box: Box, speed: real)
  datatype EnemyKind = Asteroid | Ufo
  datatype Enemy = Enemy(box: Box, speed: real, kind: EnemyKind, rotation: real, rotationSpeed: real)
  datatype Particle = Particle(x: real, y: real, vx: real, vy: real, life: int)
  datatype PowerUpKind = ExtraLife | RapidFire | Shield
  datatype PowerUp = PowerUp(box: Box, speed: real, kind: PowerUpKind)

  datatype Game = Game(
    phase: Phase,
    score: int,
    highScore: int,
    lives: int,
    level: int,
    enemySpawnRate: int,
    player: Box,
    canvasWidth: real,
    canvasHeight: real,
    bullets: seq<Bullet>,
    enemies: seq<Enemy>,
    particles: seq<Particle>,
    powerUps: seq<PowerUp>)

  const StartLives: int := 3
  const MaxLives: int := 5
  const PointsPerLevel: int := 500
  const BaseSpawnRate: int := 2000
  const MinSpawnRate: int := 500
  const SpawnRateStep: int := 100
  const UfoPoints: int := 50
  const AsteroidPoints: int := 20
  const PlayerSize: real := 50.0
  const PowerUpSize: real := 20.0
  const PowerUpSpeed: real := 2.0
  const LeaderboardSize: nat := 10
  const GameName: string := "space_defender"

  /** The constructor followed by `init`: `storedHighScore` is what
      `parseInt` made of the saved record (`None` for `NaN`, which `|| 0`
      turns into 0). */
  function NewGame(canvasWidth: real, canvasHeight: real, storedHighScore: Option<int>): (g: Game)
    ensures g.phase == Idle && g.score == 0 && g.lives == StartLives && g.level == 1
    ensures g.enemySpawnRate == BaseSpawnRate
    ensures g.highScore == (if storedHighScore.Some? then storedHighScore.value else 0)
    ensures g.player == Box(canvasWidth / 2.0 - 25.0, canvasHeight - 80.0, PlayerSize, PlayerSize)
    ensures g.bullets == [] && g.enemies == [] && g.particles == [] && g.powerUps == []
  {
    Game(Idle, 0, if storedHighScore.Some? then storedHighScore.value else 0, StartLives, 1,
         BaseSpawnRate, Box(canvasWidth / 2.0 - 25.0, canvasHeight - 80.0, PlayerSize, PlayerSize),
         canvasWidth, canvasHeight, [], [], [], [])
  }

  /** The width a canvas has when its `width` attribute is set out of range. */
  const DefaultCanvasWidth: real := 300.0

  /** `resizeCanvas`: the width follows the container (`clientWidth`, a whole
      number of pixels) less 40, at most 800; the height is 500. A negative
      width is out of range for the canvas's `width` attribute, which then
      takes its default. Nothing else changes. */
  function ResizeCanvas(g: Game, clientWidth: int): (r: Game)
    ensures clientWidth >= 40 ==> r.canvasWidth == Min(800, clientWidth - 40) as real
    ensures clientWidth < 40 ==> r.canvasWidth == DefaultCanvasWidth
    ensures 0.0 <= r.canvasWidth <= 800.0 && r.canvasHeight == 500.0
    ensures r == g.(canvasWidth := r.canvasWidth, canvasHeight := 500.0)
  {
    var w := Min(800, clientWidth - 40);
    g.(canvasWidth := if w < 0 then DefaultCanvasWidth else w as real, canvasHeight := 500.0)
  }

  /** Only the latest resize matters, and the next round centres the player
      on the new width. */
  lemma ResizeLastWins(g: Game, w1: int, w2: int)
    ensures ResizeCanvas(ResizeCanvas(g, w1), w2) == ResizeCanvas(g, w2)
    ensures StartGame(ResizeCanvas(g, w1)).player.x == ResizeCanvas(g, w1).canvasWidth / 2.0 - 25.0
  {
  }

  // ----- phases -------------------------------------------------------------

  /** `startGame`: a fresh round. The record and the spawn rate carry over. */
  function StartGame(g: Game): (r: Game)
    ensures r.phase == Playing && r.score == 0 && r.lives == StartLives && r.level == 1
    ensures r.bullets == [] && r.enemies == [] && r.particles == [] && r.powerUps == []
    ensures r.player.x == g.canvasWidth / 2.0 - 25.0
    ensures r.player.y == g.player.y && r.player.width == g.player.width && r.player.height == g.player.height
    ensures r.highScore == g.highScore && r.enemySpawnRate == g.enemySpawnRate
    ensures r.canvasWidth == g.canvasWidth && r.canvasHeight == g.canvasHeight
  {
    g.(phase := Playing, score := 0, lives := StartLives, level := 1,
       bullets := [], enemies := [], particles := [], powerUps := [],
       player := g.player.(x := g.canvasWidth / 2.0 - 25.0))
  }

  /** `togglePause` (button or the P key): swaps playing and paused, and does
      nothing in the other phases. */
  function TogglePause(g: Game): (r: Game)
    ensures g.phase == Playing ==> r == g.(phase := Paused)
    ensures g.phase == Paused ==> r == g.(phase := Playing)
    ensures g.phase == Idle || g.phase == Over ==> r == g
  {
    match g.phase
    case Playing => g.(phase := Paused)
    case Paused => g.(phase := Playing)
    case _ => g
  }

  /** Pausing twice gives back the same game. */
  lemma TogglePauseInvolution(g: Game)
    ensures TogglePause(TogglePause(g)) == g
  {
  }

  /** `resetGame`: back to idle; the round's numbers stay until the next
      start. */
  function ResetGame(g: Game): (r: Game)
    ensures r.phase == Idle && r == g.(phase := Idle)
  {
    g.(phase := Idle)
  }

  /** `gameOver`. */
  function EndGame(g: Game): (r: Game)
    ensures r.phase == Over && r == g.(phase := Over)
  {
    g.(phase := Over)
  }

  // ----- collisions -----------------------------------------------------------

  /** `isColliding`: strict overlap on both axes. */
  predicate IsColliding(a: Box, b: Box)
  {
    a.x < b.x + b.width && a.x + a.width > b.x &&
    a.y < b.y + b.height && a.y + a.height > b.y
  }

  /** Collision does not depend on the order of the two objects. */
  lemma CollidingSymmetric(a: Box, b: Box)
    ensures IsColliding(a, b) <==> IsColliding(b, a)
  {
  }

  /** A point strictly inside a box. */
  predicate Inside(px: real, py: real, b: Box)
  {
    b.x < px < b.x + b.width && b.y < py < b.y + b.height
  }

  /** For boxes of positive size, two boxes collide exactly when some point
      lies strictly inside both; touching edges do not collide. */
  lemma CollidingIffSharedPoint(a: Box, b: Box)
    requires a.width > 0.0 && a.height > 0.0 && b.width > 0.0 && b.height > 0.0
    ensures IsColliding(a, b) <==> exists px: real, py: real :: Inside(px, py, a) && Inside(px, py, b)
  {
    if IsColliding(a, b) {
      var lox := if a.x < b.x then b.x else a.x;
      var hix := if a.x + a.width < b.x + b.width then a.x + a.width else b.x + b.width;
      var loy := if a.y < b.y then b.y else a.y;
      var hiy := if a.y + a.height < b.y + b.height then a.y + a.height else b.y + b.height;
      var px, py := (lox + hix) / 2.0, (loy + hiy) / 2.0;
      assert Inside(px, py, a) && Inside(px, py, b);
    }
  }

  /** Boxes that only share an edge do not collide. */
  lemma TouchingIsNotColliding(a: Box, b: Box)
    requires b.x == a.x + a.width
    ensures !IsColliding(a, b) && !IsColliding(b, a)
  {
  }

  // ----- one frame of motion ---------------------------------------------------

  /** The `filter` whose callback first moves the object and then says
      whether the moved object stays. */
  function MapFilter<T(!new)>(s: seq<T>, f: T -> T, keep: T -> bool): (r: seq<T>)
    ensures |r| <= |s|
    ensures forall i :: 0 <= i < |r| ==> keep(r[i])
    ensures forall y :: y in r <==> exists x :: x in s && y == f(x) && keep(y)
  {
    if s == [] then []
    else
      var rest := MapFilter(s[1..], f, keep);
      assert forall x :: x in s <==> x == s[0] || x in s[1..];
      if keep(f(s[0])) then [f(s[0])] + rest else rest
  }

  /** Nothing is dropped exactly when every moved object passes the test. */
  lemma {:induction false} MapFilterKeepsAll<T(!new)>(s: seq<T>, f: T -> T, keep: T -> bool)
    ensures |MapFilter(s, f, keep)| == |s| <==> forall x :: x in s ==> keep(f(x))
  {
    if s != [] {
      MapFilterKeepsAll(s[1..], f, keep);
      assert forall x :: x in s <==> x == s[0] || x in s[1..];
    }
  }

  /** The filter keeps objects in place: the result for two lists one after
      the other is the two results one after the other. With `MapFilterOne`
      this fixes the order and the number of copies of what remains. */
  lemma {:induction false} MapFilterConcat<T(!new)>(a: seq<T>, b: seq<T>, f: T -> T, keep: T -> bool)
    ensures MapFilter(a + b, f, keep) == MapFilter(a, f, keep) + MapFilter(b, f, keep)
  {
    if a == [] {
      assert a + b == b;
    } else {
      var ab := a + b;
      assert ab[0] == a[0] && ab[1..] == a[1..] + b;
      MapFilterConcat(a[1..], b, f, keep);
    }
  }

  /** A single object stays, moved, exactly when the moved object passes. */
  lemma MapFilterOne<T(!new)>(x: T, f: T -> T, keep: T -> bool)
    ensures MapFilter([x], f, keep) == if keep(f(x)) then [f(x)] else []
  {
  }

  function AdvanceBullet(b: Bullet): Bullet
  {
    b.(box := b.box.(y := b.box.y - b.speed))
  }

  predicate BulletOnScreen(b: Bullet)
  {
    b.box.y > 0.0
  }

  /** `moveBullets`: each bullet rises by its speed and is kept while its top
      is below the top edge. */
  function MoveBullets(bs: seq<Bullet>): (r: seq<Bullet>)
    ensures |r| <= |bs|
    ensures forall i :: 0 <= i < |r| ==> r[i].box.y > 0.0
    ensures forall b :: b in r <==> exists b0 :: b0 in bs && b == AdvanceBullet(b0) && b.box.y > 0.0
  {
    MapFilter(bs, AdvanceBullet, BulletOnScreen)
  }

  function AgeParticle(p: Particle): Particle
  {
    p.(x := p.x + p.vx, y := p.y + p.vy, life := p.life - 1)
  }

  predicate Alive(p: Particle)
  {
    p.life > 0
  }

  /** `moveParticles`: each particle moves by its velocity and loses one unit
      of life; those left without life disappear. */
  function MoveParticles(ps: seq<Particle>): (r: seq<Particle>)
    ensures |r| <= |ps|
    ensures forall i :: 0 <= i < |r| ==> r[i].life > 0
    ensures forall p :: p in r <==> exists p0 :: p0 in ps && p == AgeParticle(p0) && p.life > 0
  {
    MapFilter(ps, AgeParticle, Alive)
  }

  /** The particle count stays the same exactly when no particle was on its
      last unit of life. */
  lemma ParticlesAllSurvive(ps: seq<Particle>)
    ensures |MoveParticles(ps)| == |ps| <==> forall p :: p in ps ==> p.life > 1
  {
    MapFilterKeepsAll(ps, AgeParticle, Alive);
  }

  function AdvanceEnemy(e: Enemy): Enemy
  {
    e.(box := e.box.(y := e.box.y + e.speed),
       rotation := if e.kind == Asteroid then e.rotation + e.rotationSpeed else e.rotation)
  }

  /** `moveEnemies`: enemies fall by their speed (asteroids also spin) and
      are kept while their top is above the bottom edge. */
  function MoveEnemies(es: seq<Enemy>, canvasHeight: real): (r: seq<Enemy>)
    ensures |r| <= |es|
    ensures forall i :: 0 <= i < |r| ==> r[i].box.y < canvasHeight
    ensures forall e :: e in r <==> exists e0 :: e0 in es && e == AdvanceEnemy(e0) && e.box.y < canvasHeight
  {
    MapFilter(es, AdvanceEnemy, (e: Enemy) => e.box.y < canvasHeight)
  }

  function AdvancePowerUp(u: PowerUp): PowerUp
  {
    u.(box := u.box.(y := u.box.y + u.speed))
  }

  /** `movePowerUps`: power-ups fall and are kept while above the bottom
      edge. */
  function MovePowerUps(us: seq<PowerUp>, canvasHeight: real): (r: seq<PowerUp>)
    ensures |r| <= |us|
    ensures forall i :: 0 <= i < |r| ==> r[i].box.y < canvasHeight
    ensures forall u :: u in r <==> exists u0 :: u0 in us && u == AdvancePowerUp(u0) && u.box.y < canvasHeight
  {
    MapFilter(us, AdvancePowerUp, (u: PowerUp) => u.box.y < canvasHeight)
  }

  /** Each frame's filters keep the surviving objects in their order, one
      moved copy per survivor. */
  lemma MovesKeepOrder(b1: seq<Bullet>, b2: seq<Bullet>, e1: seq<Enemy>, e2: seq<Enemy>,
                       p1: seq<Particle>, p2: seq<Particle>, u1: seq<PowerUp>, u2: seq<PowerUp>,
                       canvasHeight: real)
    ensures MoveBullets(b1 + b2) == MoveBullets(b1) + MoveBullets(b2)
    ensures MoveEnemies(e1 + e2, canvasHeight) == MoveEnemies(e1, canvasHeight) + MoveEnemies(e2, canvasHeight)
    ensures MoveParticles(p1 + p2) == MoveParticles(p1) + MoveParticles(p2)
    ensures MovePowerUps(u1 + u2, canvasHeight) == MovePowerUps(u1, canvasHeight) + MovePowerUps(u2, canvasHeight)
  {
    MapFilterConcat(b1, b2, AdvanceBullet, BulletOnScreen);
    MapFilterConcat(e1, e2, AdvanceEnemy, (e: Enemy) => e.box.y < canvasHeight);
    MapFilterConcat(p1, p2, AgeParticle, Alive);
    MapFilterConcat(u1, u2, AdvancePowerUp, (u: PowerUp) => u.box.y < canvasHeight);
  }

  /** The moving part of `update`: bullets, enemies, particles, power-ups.
      Player steering and enemy spawning are left out. */
  function MoveAll(g: Game): (r: Game)
    ensures r.bullets == MoveBullets(g.bullets) && r.particles == MoveParticles(g.particles)
    ensures r.enemies == MoveEnemies(g.enemies, g.canvasHeight)
    ensures r.powerUps == MovePowerUps(g.powerUps, g.canvasHeight)
    ensures r.phase == g.phase && r.score == g.score && r.highScore == g.highScore
    ensures r.lives == g.lives && r.level == g.level && r.enemySpawnRate == g.enemySpawnRate
  {
    g.(bullets := MoveBullets(g.bullets), enemies := MoveEnemies(g.enemies, g.canvasHeight),
       particles := MoveParticles(g.particles), powerUps := MovePowerUps(g.powerUps, g.canvasHeight))
  }

  // ----- hits and power-ups ----------------------------------------------------

  /** The sequence without its element at `i`, as `splice(i, 1)`. */
  function RemoveAt<T>(s: seq<T>, i: nat): (r: seq<T>)
    requires i < |s|
    ensures |r| == |s| - 1
    ensures forall j :: 0 <= j < i ==> r[j] == s[j]
    ensures forall j :: i <= j < |r| ==> r[j] == s[j + 1]
    ensures multiset(r) + multiset{s[i]} == multiset(s)
  {
    assert s == s[..i] + [s[i]] + s[i + 1..];
    s[..i] + s[i + 1..]
  }

  /** The score for destroying an enemy. */
  function Points(kind: EnemyKind): int
  {
    if kind == Ufo then UfoPoints else AsteroidPoints
  }

  /** What a game step produces: the new game and the `game-score` it sends,
      if any. */
  datatype Outcome = Outcome(game: Game, emit: Option<Inbound>)

  /** A bullet destroys an enemy: both are removed, the score rises by 50
      for a UFO and 20 otherwise, and a new record is saved and, when
      `loggedIn` (socket and current user present), sent to the server.
      `drop` is the power-up the random roll produced at the enemy's place,
      if any. The explosion particles are left out. */
  function HitEnemy(g: Game, bi: nat, ei: nat, drop: Option<PowerUpKind>, loggedIn: bool): (r: Outcome)
    requires bi < |g.bullets| && ei < |g.enemies|
    ensures r.game.score == g.score + (if g.enemies[ei].kind == Ufo then 50 else 20)
    ensures r.game.highScore == Max(g.highScore, r.game.score)
    ensures r.game.enemies == RemoveAt(g.enemies, ei) && r.game.bullets == RemoveAt(g.bullets, bi)
    ensures drop.None? ==> r.game.powerUps == g.powerUps
    ensures drop.Some? ==>
              var e := g.enemies[ei].box;
              r.game.powerUps == g.powerUps + [PowerUp(Box(e.x, e.y, PowerUpSize, PowerUpSize), PowerUpSpeed, drop.value)]
    ensures r.emit.Some? <==> loggedIn && r.game.score > g.highScore
    ensures r.emit.Some? ==> r.emit.value == Inbound.GameScore(r.game.highScore, GameName)
    ensures r.game.phase == g.phase && r.game.lives == g.lives && r.game.level == g.level
    ensures r.game.enemySpawnRate == g.enemySpawnRate && r.game.particles == g.particles
  {
    var enemy := g.enemies[ei];
    var score := g.score + Points(enemy.kind);
    var record := score > g.highScore;
    var powerUps := match drop
      case None => g.powerUps
      case Some(kind) => g.powerUps + [PowerUp(Box(enemy.box.x, enemy.box.y, PowerUpSize, PowerUpSize), PowerUpSpeed, kind)];
    var g' := g.(enemies := RemoveAt(g.enemies, ei), bullets := RemoveAt(g.bullets, bi), score := score,
                 highScore := if record then score else g.highScore, powerUps := powerUps);
    Outcome(g', if record && loggedIn then Some(Inbound.GameScore(score, GameName)) else None)
  }

  /** An enemy reaches the player: the enemy is removed, a life is lost, and
      the game ends when no life is left. The explosion is left out. */
  function PlayerHit(g: Game, ei: nat): (r: Game)
    requires ei < |g.enemies|
    ensures r.enemies == RemoveAt(g.enemies, ei)
    ensures r.lives == g.lives - 1
    ensures r.phase == (if g.lives - 1 <= 0 then Over else g.phase)
    ensures r.score == g.score && r.highScore == g.highScore && r.level == g.level
    ensures r.enemySpawnRate == g.enemySpawnRate
    ensures r.bullets == g.bullets && r.powerUps == g.powerUps && r.particles == g.particles
  {
    var g' := g.(enemies := RemoveAt(g.enemies, ei), lives := g.lives - 1);
    if g'.lives <= 0 then EndGame(g') else g'
  }

  /** `applyPowerUp`: an extra life up to five; rapid fire and the shield
      only start timers whose callbacks are empty. */
  function ApplyPowerUp(g: Game, kind: PowerUpKind): (r: Game)
    ensures kind == ExtraLife ==> r == g.(lives := Min(g.lives + 1, MaxLives))
    ensures kind != ExtraLife ==> r == g
  {
    if kind == ExtraLife then g.(lives := Min(g.lives + 1, MaxLives)) else g
  }

  /** The player picks up a power-up: it is removed and applied. */
  function CollectPowerUp(g: Game, pi: nat): (r: Game)
    requires pi < |g.powerUps|
    ensures r.powerUps == RemoveAt(g.powerUps, pi)
    ensures g.powerUps[pi].kind == ExtraLife ==> r.lives == Min(g.lives + 1, MaxLives)
    ensures g.powerUps[pi].kind != ExtraLife ==> r.lives == g.lives
    ensures r == g.(powerUps := r.powerUps, lives := r.lives)
  {
    ApplyPowerUp(g.(powerUps := RemoveAt(g.powerUps, pi)), g.powerUps[pi].kind)
  }

  /** `updateLevel`: the level follows the score (one level per 500 points,
      with `Math.floor`, which is Dafny's `/` for a positive divisor) but
      never goes down, and each raise makes enemies spawn faster, never
      more often than every 500 ms. */
  function UpdateLevel(g: Game): (r: Game)
    ensures r.level == Max(g.level, g.score / PointsPerLevel + 1)
    ensures r.level > g.level ==> r.enemySpawnRate == Max(MinSpawnRate, BaseSpawnRate - SpawnRateStep * r.level)
    ensures r.level == g.level ==> r == g
    ensures r == g.(level := r.level, enemySpawnRate := r.enemySpawnRate)
  {
    var newLevel := g.score / PointsPerLevel + 1;
    if newLevel > g.level then
      g.(level := newLevel, enemySpawnRate := Max(MinSpawnRate, BaseSpawnRate - newLevel * SpawnRateStep))
    else g
  }

  /** Running `updateLevel` twice is the same as once. */
  lemma UpdateLevelIdempotent(g: Game)
    ensures UpdateLevel(UpdateLevel(g)) == UpdateLevel(g)
  {
  }

  // ----- the game as a sequence of events ----------------------------------------

  /** What can happen to the game: the three controls, the motion of a
      frame, the level check at the end of a frame, and the three kinds of
      collision found in a frame (by index into the current lists). */
  datatype Action =
    | Start
    | Pause
    | Reset
    | Resize(clientWidth: int)
    | Move
    | LevelCheck
    | BulletHit(bullet: nat, enemy: nat, drop: Option<PowerUpKind>)
    | Crash(enemy: nat)
    | Pickup(powerUp: nat)

  /** Frame work only happens while playing (`gameLoop` returns otherwise),
      and a collision only when the two boxes overlap. */
  function Apply(g: Game, a: Action, loggedIn: bool): (r: Outcome)
    ensures r.emit.Some? ==> a.BulletHit? && g.phase == Playing
    ensures g.phase != Playing && !a.Start? && !a.Pause? && !a.Reset? && !a.Resize? ==> r == Outcome(g, None)
  {
    match a
    case Start => Outcome(StartGame(g), None)
    case Pause => Outcome(TogglePause(g), None)
    case Reset => Outcome(ResetGame(g), None)
    case Resize(w) => Outcome(ResizeCanvas(g, w), None)
    case Move => Outcome(if g.phase == Playing then MoveAll(g) else g, None)
    case LevelCheck => Outcome(if g.phase == Playing then UpdateLevel(g) else g, None)
    case BulletHit(bi, ei, drop) =>
      if g.phase == Playing && bi < |g.bullets| && ei < |g.enemies|
         && IsColliding(g.bullets[bi].box, g.enemies[ei].box)
      then HitEnemy(g, bi, ei, drop, loggedIn)
      else Outcome(g, None)
    case Crash(ei) =>
      if g.phase == Playing && ei < |g.enemies| && IsColliding(g.player, g.enemies[ei].box)
      then Outcome(PlayerHit(g, ei), None)
      else Outcome(g, None)
    case Pickup(pi) =>
      if g.phase == Playing && pi < |g.powerUps| && IsColliding(g.player, g.powerUps[pi].box)
      then Outcome(CollectPowerUp(g, pi), None)
      else Outcome(g, None)
  }

  /** The bookkeeping every reachable game keeps: a non-negative score that
      is covered by the record once it is positive, a level between 1 and
      what the score allows, at most five lives, and a spawn interval
      between 500 and 2000 ms. */
  predicate Sound(g: Game)
  {
    && 0 <= g.score
    && (g.score == 0 || g.score <= g.highScore)
    && 1 <= g.level <= g.score / PointsPerLevel + 1
    && g.lives <= MaxLives
    && MinSpawnRate <= g.enemySpawnRate <= BaseSpawnRate
  }

  lemma NewGameSound(canvasWidth: real, canvasHeight: real, storedHighScore: Option<int>)
    ensures Sound(NewGame(canvasWidth, canvasHeight, storedHighScore))
  {
  }

  /** Every step keeps the bookkeeping sound, never lowers the record, and
      a `game-score` it sends carries the new record, which beats the old
      one. */
  lemma ApplySound(g: Game, a: Action, loggedIn: bool)
    requires Sound(g)
    ensures Sound(Apply(g, a, loggedIn).game)
    ensures Apply(g, a, loggedIn).game.highScore >= g.highScore
    ensures var r := Apply(g, a, loggedIn);
            r.emit.Some? ==> r.emit.value == Inbound.GameScore(r.game.highScore, GameName)
                             && r.game.highScore > g.highScore
  {
    match a
    case BulletHit(bi, ei, drop) =>
      if g.phase == Playing && bi < |g.bullets| && ei < |g.enemies| {
        var r := HitEnemy(g, bi, ei, drop, loggedIn);
        DivMonotone(g.score, r.game.score, PointsPerLevel);
      }
    case _ =>
  }

  /** The result of a run: the final game and the scores sent, in order. */
  datatype Played = Played(game: Game, sent: seq<int>)

  function Run(g: Game, actions: seq<Action>, loggedIn: bool): (r: Played)
    ensures |r.sent| <= |actions|
    decreases |actions|
  {
    if actions == [] then Played(g, [])
    else
      var o := Apply(g, actions[0], loggedIn);
      var rest := Run(o.game, actions[1..], loggedIn);
      var sent := if o.emit.Some? && o.emit.value.GameScore? then [o.emit.value.score] + rest.sent
                  else rest.sent;
      Played(rest.game, sent)
  }

  /** A number below every element of a strictly increasing sequence can go
      in front of it. */
  lemma ConsIncreasing(x: int, rest: seq<int>)
    requires forall i, j :: 0 <= i < j < |rest| ==> rest[i] < rest[j]
    requires forall i :: 0 <= i < |rest| ==> x < rest[i]
    ensures forall i, j :: 0 <= i < j < |[x] + rest| ==> ([x] + rest)[i] < ([x] + rest)[j]
  {
    var s := [x] + rest;
    forall i, j | 0 <= i < j < |s| ensures s[i] < s[j] {
      assert s[j] == rest[j - 1];
      if i > 0 { assert s[i] == rest[i - 1]; }
    }
  }

  /** Over any run from a sound game: the game stays sound, the scores sent
      to the server strictly increase, each beats the record the run started
      with, and the last one is the final record. */
  lemma {:induction false} RunScoresIncrease(g: Game, actions: seq<Action>, loggedIn: bool)
    requires Sound(g)
    ensures var r := Run(g, actions, loggedIn);
            && Sound(r.game)
            && r.game.highScore >= g.highScore
            && (forall i, j :: 0 <= i < j < |r.sent| ==> r.sent[i] < r.sent[j])
            && (forall i :: 0 <= i < |r.sent| ==> g.highScore < r.sent[i] <= r.game.highScore)
    decreases |actions|
  {
    if actions != [] {
      var o := Apply(g, actions[0], loggedIn);
      ApplySound(g, actions[0], loggedIn);
      RunScoresIncrease(o.game, actions[1..], loggedIn);
      var rest := Run(o.game, actions[1..], loggedIn);
      var r := Run(g, actions, loggedIn);
      if o.emit.Some? {
        assert r.sent == [o.game.highScore] + rest.sent;
        ConsIncreasing(o.game.highScore, rest.sent);
      } else {
        assert r.sent == rest.sent;
      }
    }
  }

  // ----- leaderboard ---------------------------------------------------------------

  /** One line of `scoresList`: the player's first name, the game, the
      score. */
  datatype ScoreItem = ScoreItem(firstName: string, game: string, score: int)

  /** The line a `new-highscore` broadcast adds. */
  function ItemOf(player: Profile, score: int, game: string): (i: ScoreItem)
    ensures i.firstName == player.firstName && i.game == game && i.score == score
  {
    ScoreItem(player.firstName, game, score)
  }

  /** `updateLeaderboard`: the new line goes first; when that makes more
      than ten, the last line is removed. */
  function UpdateLeaderboard(items: seq<ScoreItem>, item: ScoreItem): (r: seq<ScoreItem>)
    ensures |r| == (if |items| + 1 > LeaderboardSize then |items| else |items| + 1)
    ensures r[0] == item
    ensures forall i :: 1 <= i < |r| ==> r[i] == items[i - 1]
    ensures |items| <= LeaderboardSize ==> |r| <= LeaderboardSize
  {
    var added := [item] + items;
    if |added| > LeaderboardSize then added[..|added| - 1] else added
  }

  /** The board after the broadcasts `items`, oldest first, starting from an
      empty list. */
  function Board(items: seq<ScoreItem>): seq<ScoreItem>
    decreases |items|
  {
    if items == [] then [] else UpdateLeaderboard(Board(items[..|items| - 1]), items[|items| - 1])
  }

  /** The board always shows the ten most recent lines, newest first. */
  lemma {:induction false} BoardShowsLatest(items: seq<ScoreItem>)
    ensures Board(items) == Reverse(items)[..Min(|items|, LeaderboardSize)]
    decreases |items|
  {
    if items != [] {
      var init := items[..|items| - 1];
      BoardShowsLatest(init);
      var b := Board(items);
      var want := Reverse(items)[..Min(|items|, LeaderboardSize)];
      assert |b| == |want|;
      forall i | 0 <= i < |b| ensures b[i] == want[i] {
        if i > 0 { assert b[i] == Board(init)[i - 1] == Reverse(init)[i - 1]; }
      }
    }
  }
}
