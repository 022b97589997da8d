/** The game object: its counters and entity lists, changed in place tick by tick. */
module Game {
  import opened Config
  import opened Geometry
  import opened Entities
  import opened PowerUps
  import opened Statistics
  import opened Simulation

  /** The game never enters the other states the source declares. */
  datatype GameState = Playing | GameOver

  /** What the environment supplies to one call of `update`: the clock reading, the
      arrow keys held, the random draws of the tick's kills (by kill number), the draw
      that picks the shooting enemy, and the timestamp recorded if the game ends. */
  datatype TickInput = TickInput(
    now: int, left: bool, right: bool, draws: nat -> DropDraw, firePick: Random01, timestamp: string)

  const StartLives: int := 3
  const PlayerStartX: real := GameWidth / 2.0 - PlayerWidth / 2.0
  const PlayerStartY: real := GameHeight - 50.0

  /** Everything one tick of `update` reads or changes, as a value: the counters, the
      ship, the power-up ledger, the entity lists and the state. */
  datatype World = World(
    gameTime: int, player: Player, ledger: Ledger, powerUps: seq<PowerUpItem>, collected: int,
    bullets: seq<Bullet>, enemies: seq<Enemy>, lives: int, score: int, kills: int, dropped: int,
    enemyBullets: seq<EnemyBullet>, particles: seq<int>, wave: int, bulletLevel: int, state: GameState)

  /** The tick counter advances and the held keys move the ship. */
  function MovePhase(w: World, left: bool, right: bool): World {
    w.(gameTime := w.gameTime + 1, player := w.player.Moved(left, right))
  }

  /** `powerUpManager.update()`: the effects that have run out at `now` end. */
  function ExpirePhase(w: World, now: int): World {
    w.(ledger := w.ledger.Purge(now))
  }

  /** `updatePowerUps()`: every item moves, and the ones the ship touches are collected
      at `now`, each with 16 sparkles. */
  function CollectPhase(w: World, now: int): World {
    var kinds := CollectedKinds(w.powerUps, w.player);
    w.(ledger := PickupAll(w.ledger, kinds, now),
       powerUps := ItemsAfter(w.powerUps, w.player),
       collected := w.collected + |kinds|,
       particles := w.particles + Burst(|kinds| * CollectParticles, FireworkLife))
  }

  /** The two power-up steps of `update`, expiry first. */
  function PowerUpPhase(w: World, now: int): World {
    CollectPhase(ExpirePhase(w, now), now)
  }

  /** `updateBullets()`. */
  function BulletPhase(w: World): World {
    w.(bullets := AdvanceBullets(w.bullets))
  }

  /** The first step of `updateEnemies()`: every invader moves. */
  function MarchPhase(w: World): World {
    w.(enemies := MovedAll(w.enemies))
  }

  /** The second step: an invader past the bottom line takes every life. */
  function BottomPhase(w: World): World {
    w.(lives := if ReachedBottom(w.enemies) then 0 else w.lives)
  }

  /** The third step: the bullets are resolved against the formation. */
  function KillPhase(w: World, draws: nat -> DropDraw, m: real): World {
    var r := KillPass(w.enemies, w.bullets, w.score, w.powerUps, w.dropped, w.particles, draws, m);
    w.(enemies := r.enemies, bullets := r.survivors, score := r.score, kills := w.kills + r.kills,
       powerUps := r.powerUps, dropped := r.dropped, particles := r.particles)
  }

  /** `updateEnemies()`: every invader moves, reaching the bottom line takes every life,
      then the bullets are resolved against the moved formation. */
  function EnemyPhase(w: World, draws: nat -> DropDraw, m: real): World {
    KillPhase(BottomPhase(MarchPhase(w)), draws, m)
  }

  /** `updateEnemyBullets()`, with the shield on exactly when the ledger lists it. */
  function EnemyBulletPhase(w: World): World {
    var on := w.ledger.Active(Shield);
    w.(enemyBullets := EnemyBulletsAfter(w.enemyBullets, w.player, on),
       lives := w.lives - Hits(w.enemyBullets, w.player, on),
       particles := w.particles + Burst(Blasts(w.enemyBullets, w.player, on) * ExplosionParticles, ExplosionLife))
  }

  /** The particle filter and update. */
  function AgePhase(w: World): World {
    w.(particles := AgeParticles(w.particles))
  }

  /** `enemyActions()`. */
  function FirePhase(w: World, pick: Random01, d: Difficulty): World
    requires d.Valid()
  {
    if FiresAt(w.gameTime, d) && |w.enemies| > 0 then
      w.(enemyBullets := w.enemyBullets + [EnemyShot(w.enemies[FireIndex(pick, |w.enemies|)], d)])
    else w
  }

  /** `nextWave()`: the wave advances with its drop count reset, the tier may unlock
      (with a burst of sparkles), and the new formation is spawned. */
  function NextWavePhase(w: World, d: Difficulty): World {
    w.(wave := w.wave + 1, dropped := 0, bulletLevel := NextBulletLevel(w.bulletLevel, w.wave + 1),
       particles := w.particles + (if Unlocks(w.bulletLevel, w.wave + 1) then Burst(UpgradeParticles, FireworkLife) else []),
       enemies := SpawnGrid(w.wave + 1, d))
  }

  /** The wave-clear branch of `update`. */
  function WavePhase(w: World, d: Difficulty): World {
    if |w.enemies| == 0 then NextWavePhase(w, d) else w
  }

  /** The game-over check at the end of `update`. */
  function EndPhase(w: World): World {
    if w.lives <= 0 then w.(state := GameOver) else w
  }

  /** The phases of `update` before the wave and game-over checks, in the source's order. */
  function PlayPhases(w: World, input: TickInput, d: Difficulty): World
    requires d.Valid()
  {
    FirePhase(AgePhase(EnemyBulletPhase(EnemyPhase(BulletPhase(
      PowerUpPhase(MovePhase(w, input.left, input.right), input.now)), input.draws, d.scoreMultiplier))),
      input.firePick, d)
  }

  /** One whole call of `update` on a running game. */
  function Step(w: World, input: TickInput, d: Difficulty): World
    requires d.Valid()
  {
    EndPhase(WavePhase(PlayPhases(w, input, d), d))
  }

  class SpaceInvadersGame {
    var state: GameState
    var isPaused: bool
    var score: int
    var lives: int
    var wave: int
    var gameTime: int
    const difficulty: Difficulty
    var bulletLevel: int
    var powerupCollected: int
    var powerupsDroppedThisWave: int
    var bulletsFired: int
    var enemiesKilled: int
    var player: Player
    var enemies: seq<Enemy>
    var bullets: seq<Bullet>
    var enemyBullets: seq<EnemyBullet>
    /** Only the life counter of each particle is modelled. */
    var particles: seq<int>
    var powerUps: seq<PowerUpItem>
    const powerUpManager: PowerUpManager
    /** The statistics store the game reports to when it ends. */
    const stats: StatisticsManager

    /** What holds between ticks: the tier matches the wave, the drop caps hold, the
        formation is never empty and is all of the current wave, and the game is over
        exactly when no lives are left. */
    ghost predicate Valid()
      reads this`wave, this`bulletLevel, this`powerupsDroppedThisWave, this`powerUps, this`enemies
      reads this`score, this`enemiesKilled, this`bulletsFired, this`powerupCollected, this`gameTime
      reads this`state, this`lives, powerUpManager
    {
      Steady() && |enemies| > 0 && (state == GameOver <==> lives <= 0)
    }

    /** The part of Valid that also holds in the middle of a tick, before the wave and
        game-over checks. */
    ghost predicate Steady()
      reads this`wave, this`bulletLevel, this`powerupsDroppedThisWave, this`powerUps, this`enemies
      reads this`score, this`enemiesKilled, this`bulletsFired, this`powerupCollected, this`gameTime
      reads powerUpManager
    {
      powerUpManager.Valid() && difficulty.Valid() &&
      wave >= 1 && bulletLevel == TierFor(wave) &&
      0 <= powerupsDroppedThisWave <= MaxDropsPerWave && |powerUps| <= MaxPowerUpsOnScreen &&
      AllWorth(enemies, EnemyPoints(wave)) &&
      score >= 0 && enemiesKilled >= 0 && bulletsFired >= 0 && powerupCollected >= 0 && gameTime >= 0
    }

    /** The fields one tick of `update` works on, with the power-up manager as its ledger. */
    function Snapshot(): World
      reads this`gameTime, this`player, this`powerUps, this`powerupCollected, this`bullets, this`enemies
      reads this`lives, this`score, this`enemiesKilled, this`powerupsDroppedThisWave, this`enemyBullets
      reads this`particles, this`wave, this`bulletLevel, this`state, powerUpManager
    {
      World(gameTime, player, powerUpManager.Model(), powerUps, powerupCollected, bullets, enemies, lives,
            score, enemiesKilled, powerupsDroppedThisWave, enemyBullets, particles, wave, bulletLevel, state)
    }

    /** What `endGame` reports. The play time divides the tick count by 1000 as if it
        were milliseconds. */
    function Summary(): GameSummary
      reads this
    {
      GameSummary(score, wave, powerupCollected, Round(gameTime as real / 1000.0),
                  bulletsFired, enemiesKilled, difficulty.name)
    }

    /** A new game: three lives, wave 1, tier 1, the ship centred near the bottom, and the
        first formation spawned. */
    constructor (d: Difficulty, statistics: StatisticsManager)
      requires d.Valid()
      ensures Valid() && fresh(powerUpManager) && stats == statistics
      ensures state == Playing && !isPaused && score == 0 && lives == StartLives
      ensures wave == 1 && gameTime == 0 && difficulty == d && bulletLevel == 1
      ensures powerupCollected == 0 && powerupsDroppedThisWave == 0 && bulletsFired == 0 && enemiesKilled == 0
      ensures player == Player(PlayerStartX, PlayerStartY)
      ensures enemies == SpawnGrid(1, d)
      ensures bullets == [] && enemyBullets == [] && particles == [] && powerUps == []
      ensures powerUpManager.Model() == Fresh
    {
      state, isPaused := Playing, false;
      score, lives, wave, gameTime := 0, StartLives, 1, 0;
      difficulty := d;
      bulletLevel := 1;
      powerupCollected, powerupsDroppedThisWave := 0, 0;
      bulletsFired, enemiesKilled := 0, 0;
      player := Player(PlayerStartX, PlayerStartY);
      enemies, bullets, enemyBullets, particles, powerUps := [], [], [], [], [];
      powerUpManager := new PowerUpManager();
      stats := statistics;
      new;
      SpawnWave();
    }

    /** `spawnWave`: replaces the enemies by a 3 x 6 formation of the current wave. */
    method SpawnWave()
      modifies this`enemies
      ensures enemies == SpawnGrid(wave, difficulty)
      ensures Snapshot() == old(Snapshot()).(enemies := SpawnGrid(wave, difficulty))
    {
      ghost var grid := SpawnGrid(wave, difficulty);
      enemies := [];
      var row := 0;
      while row < GridRows
        invariant 0 <= row <= GridRows
        invariant enemies == grid[..row * GridCols]
      {
        var col := 0;
        while col < GridCols
          invariant 0 <= col <= GridCols
          invariant enemies == grid[..row * GridCols + col]
        {
          var x := GridStartX + col as real * GridSpacing;
          var y := GridStartY + row as real * GridSpacing;
          GridSlot(row, col);
          assert grid[row * GridCols + col] == NewEnemy(x, y, wave, difficulty);
          assert grid[..row * GridCols + col + 1] == grid[..row * GridCols + col] + [grid[row * GridCols + col]];
          enemies := enemies + [NewEnemy(x, y, wave, difficulty)];
          col := col + 1;
        }
        row := row + 1;
      }
      assert grid[..GridRows * GridCols] == grid;
    }

    /** `updatePowerUps`: the items are walked from the last; each falls, is dropped below
        the bottom edge, or is collected on touching the ship (the effect starts at
        `now`, the collected counter rises and 16 sparkles appear). */
    method UpdatePowerUps(now: int)
      requires powerUpManager.Valid()
      modifies this`powerUps, this`powerupCollected, this`particles, powerUpManager
      ensures powerUpManager.Valid()
      ensures powerUps == ItemsAfter(old(powerUps), player)
      ensures var kinds := CollectedKinds(old(powerUps), player);
              powerUpManager.Model() == PickupAll(old(powerUpManager.Model()), kinds, now) &&
              powerupCollected == old(powerupCollected) + |kinds| &&
              particles == old(particles) + Burst(|kinds| * CollectParticles, FireworkLife)
      ensures Snapshot() == CollectPhase(old(Snapshot()), now)
    {
      ghost var w0 := Snapshot();
      ghost var p0, l0, c0, ps0 := w0.powerUps, w0.ledger, w0.collected, w0.particles;
      var i := |powerUps|;
      while i > 0
        invariant 0 <= i <= |p0|
        invariant ItemPassAt(i, p0, l0, c0, ps0, now)
      {
        i := i - 1;
        ItemAt(i, now, p0, l0, c0, ps0);
      }
      assert p0[..0] == [] && p0[0..] == p0;
    }

    /** The game's items, ledger, counter and particles are those of the pass over the
        items once indices i and above are done. */
    ghost predicate ItemPassAt(i: nat, p0: seq<PowerUpItem>, l0: Ledger, c0: int, ps0: seq<int>, now: int)
      requires i <= |p0|
      reads this, powerUpManager
    {
      var done := CollectedKinds(p0[i..], player);
      powerUps == p0[..i] + ItemsAfter(p0[i..], player) &&
      powerUpManager.Valid() &&
      powerUpManager.Model() == PickupAll(l0, done, now) &&
      powerupCollected == c0 + |done| &&
      particles == ps0 + Burst(|done| * CollectParticles, FireworkLife)
    }

    /** One iteration of `updatePowerUps`, on the item at index i. */
    method ItemAt(i: nat, now: int, ghost p0: seq<PowerUpItem>, ghost l0: Ledger, ghost c0: int, ghost ps0: seq<int>)
      requires i < |p0| && ItemPassAt(i + 1, p0, l0, c0, ps0, now)
      modifies this`powerUps, this`powerupCollected, this`particles, powerUpManager
      ensures ItemPassAt(i, p0, l0, c0, ps0, now)
    {
      assert powerUps[i] == p0[..i + 1][i] == p0[i];
      var item := powerUps[i].Advanced();
      if item.y > GameHeight {
        ItemLost(i, item, now, p0, l0, c0, ps0);
      } else if Overlaps(item.Box(), player.Box()) {
        ItemCollected(i, item, now, p0, l0, c0, ps0);
      } else {
        ItemFalls(i, item, now, p0, l0, c0, ps0);
      }
    }

    /** An item that has fallen past the bottom edge is removed. */
    method ItemLost(i: nat, item: PowerUpItem, now: int, ghost p0: seq<PowerUpItem>, ghost l0: Ledger, ghost c0: int,
                    ghost ps0: seq<int>)
      requires i < |p0| && ItemPassAt(i + 1, p0, l0, c0, ps0, now)
      requires item == p0[i].Advanced() && item.y > GameHeight
      modifies this`powerUps
      ensures ItemPassAt(i, p0, l0, c0, ps0, now)
    {
      ghost var done := CollectedKinds(p0[i + 1..], player);
      ghost var rest := ItemsAfter(p0[i + 1..], player);
      ItemStep(p0, i, player);
      PrefixStep(p0, i);
      MoveItem(i, item, p0[..i], p0[i], rest);
      Splice(p0[..i], item, rest);
      powerUps := powerUps[..i] + powerUps[i + 1..];
      assert ItemsAfter(p0[i..], player) == [] + rest == rest;
      assert powerUps == p0[..i] + rest;
      assert CollectedKinds(p0[i..], player) == done + [] == done;
    }

    /** An item that touches the ship is collected and removed. */
    method ItemCollected(i: nat, item: PowerUpItem, now: int, ghost p0: seq<PowerUpItem>, ghost l0: Ledger, ghost c0: int,
                         ghost ps0: seq<int>)
      requires i < |p0| && ItemPassAt(i + 1, p0, l0, c0, ps0, now)
      requires item == p0[i].Advanced() && item.y <= GameHeight && Overlaps(item.Box(), player.Box())
      modifies this`powerUps, this`powerupCollected, this`particles, powerUpManager
      ensures ItemPassAt(i, p0, l0, c0, ps0, now)
    {
      ghost var done := CollectedKinds(p0[i + 1..], player);
      ghost var rest := ItemsAfter(p0[i + 1..], player);
      ItemStep(p0, i, player);
      PrefixStep(p0, i);
      MoveItem(i, item, p0[..i], p0[i], rest);
      Splice(p0[..i], item, rest);
      Collect(i, item.kind, now, l0, c0, ps0, done);
      assert ItemsAfter(p0[i..], player) == [] + rest == rest;
      assert powerUps == p0[..i] + rest;
      assert CollectedKinds(p0[i..], player) == done + [item.kind];
    }

    /** Any other item stays, one step lower. */
    method ItemFalls(i: nat, item: PowerUpItem, now: int, ghost p0: seq<PowerUpItem>, ghost l0: Ledger, ghost c0: int,
                     ghost ps0: seq<int>)
      requires i < |p0| && ItemPassAt(i + 1, p0, l0, c0, ps0, now)
      requires item == p0[i].Advanced() && item.y <= GameHeight && !Overlaps(item.Box(), player.Box())
      modifies this`powerUps
      ensures ItemPassAt(i, p0, l0, c0, ps0, now)
    {
      ghost var done := CollectedKinds(p0[i + 1..], player);
      ghost var rest := ItemsAfter(p0[i + 1..], player);
      ItemStep(p0, i, player);
      PrefixStep(p0, i);
      MoveItem(i, item, p0[..i], p0[i], rest);
      assert ItemsAfter(p0[i..], player) == [item] + rest;
      assert powerUps == p0[..i] + [item] + rest == p0[..i] + ([item] + rest);
      assert CollectedKinds(p0[i..], player) == done + [] == done;
    }

    /** The item at index i takes its moved form. */
    method MoveItem(i: nat, item: PowerUpItem, ghost pre: seq<PowerUpItem>, ghost was: PowerUpItem,
                    ghost rest: seq<PowerUpItem>)
      requires |pre| == i && powerUps == pre + [was] + rest
      modifies this`powerUps
      ensures powerUps == pre + [item] + rest
    {
      Replace(pre, was, item, rest);
      powerUps := powerUps[i := item];
    }

    /** The collect branch of `updatePowerUps`: the item at index i is removed, its effect
        starts, and the counters and sparkles follow. */
    method Collect(i: nat, kind: PowerUpType, now: int, ghost l0: Ledger, ghost c0: int, ghost ps0: seq<int>,
                   ghost done: seq<PowerUpType>)
      requires i < |powerUps| && powerUpManager.Valid()
      requires powerUpManager.Model() == PickupAll(l0, done, now)
      requires powerupCollected == c0 + |done|
      requires particles == ps0 + Burst(|done| * CollectParticles, FireworkLife)
      modifies this`powerUps, this`powerupCollected, this`particles, powerUpManager
      ensures powerUps == old(powerUps)[..i] + old(powerUps)[i + 1..]
      ensures powerUpManager.Valid()
      ensures powerUpManager.Model() == PickupAll(l0, done + [kind], now)
      ensures powerupCollected == c0 + |done + [kind]|
      ensures particles == ps0 + Burst(|done + [kind]| * CollectParticles, FireworkLife)
    {
      powerUpManager.AddPowerUp(kind, now);
      PickupStep(l0, done, kind, now);
      powerupCollected := powerupCollected + 1;
      powerUps := powerUps[..i] + powerUps[i + 1..];
      Sparkle(ps0, |done|);
    }

    /** The sparkles of one more collected item join those of the `n` before it. */
    method Sparkle(ghost ps0: seq<int>, ghost n: nat)
      requires particles == ps0 + Burst(n * CollectParticles, FireworkLife)
      modifies this`particles
      ensures particles == ps0 + Burst((n + 1) * CollectParticles, FireworkLife)
    {
      ghost var before := Burst(n * CollectParticles, FireworkLife);
      BurstAppend(n * CollectParticles, CollectParticles, FireworkLife);
      particles := particles + Burst(CollectParticles, FireworkLife);
      assert particles == ps0 + (before + Burst(CollectParticles, FireworkLife));
    }

    /** `updateBullets`: every bullet rises, from the last to the first; those past the
        top edge are removed. */
    method UpdateBullets()
      modifies this`bullets
      ensures bullets == AdvanceBullets(old(bullets))
      ensures Snapshot() == BulletPhase(old(Snapshot()))
    {
      ghost var b0 := bullets;
      var i := |bullets|;
      while i > 0
        invariant 0 <= i <= |b0|
        invariant bullets == b0[..i] + AdvanceBullets(b0[i..])
      {
        i := i - 1;
        BulletAt(i, b0);
      }
      assert b0[..0] == [] && b0[0..] == b0;
    }

    /** One iteration of `updateBullets`, on the bullet at index i. */
    method BulletAt(i: nat, ghost b0: seq<Bullet>)
      requires i < |b0| && bullets == b0[..i + 1] + AdvanceBullets(b0[i + 1..])
      modifies this`bullets
      ensures bullets == b0[..i] + AdvanceBullets(b0[i..])
    {
      ghost var rest := AdvanceBullets(b0[i + 1..]);
      BulletStep(b0, i);
      PrefixStep(b0, i);
      assert bullets == b0[..i] + [b0[i]] + rest;
      var b := bullets[i].Advanced();
      Replace(b0[..i], b0[i], b, rest);
      bullets := bullets[i := b];
      if b.y < 0.0 {
        Splice(b0[..i], b, rest);
        bullets := bullets[..i] + bullets[i + 1..];
      }
    }

    /** The first step of `updateEnemies`: every enemy moves. */
    method MoveEnemies()
      modifies this`enemies
      ensures enemies == MovedAll(old(enemies))
      ensures Snapshot() == MarchPhase(old(Snapshot()))
    {
      ghost var e0 := enemies;
      var k := 0;
      while k < |enemies|
        invariant 0 <= k <= |e0| && |enemies| == |e0|
        invariant forall j :: 0 <= j < k ==> enemies[j] == e0[j].Moved()
        invariant forall j :: k <= j < |e0| ==> enemies[j] == e0[j]
      {
        enemies := enemies[k := enemies[k].Moved()];
        k := k + 1;
      }
    }

    /** The second step of `updateEnemies`: an enemy past the bottom line ends the game by
        setting the lives to 0. */
    method CheckBottom()
      modifies this`lives
      ensures lives == if ReachedBottom(enemies) then 0 else old(lives)
      ensures Snapshot() == BottomPhase(old(Snapshot()))
    {
      var k := 0;
      while k < |enemies|
        invariant 0 <= k <= |enemies|
        invariant forall j :: 0 <= j < k ==> enemies[j].y + EnemyHeight <= GameHeight - 50.0
      {
        if enemies[k].y + EnemyHeight > GameHeight - 50.0 {
          lives := 0;
          break;
        }
        k := k + 1;
      }
    }

    /** The inner scan of `updateEnemies`: the enemies are tried from the last, and the
        first one the bullet overlaps is the one it destroys. */
    method TargetOf(b: Bullet) returns (j: int)
      ensures j == TargetIndex(enemies, b)
    {
      j := |enemies| - 1;
      assert enemies[..|enemies|] == enemies;
      while j >= 0
        invariant -1 <= j < |enemies|
        invariant TargetIndex(enemies, b) == TargetIndex(enemies[..j + 1], b)
      {
        if Overlaps(b.Box(), enemies[j].Box()) {
          return;
        }
        assert enemies[..j + 1][..j] == enemies[..j];
        j := j - 1;
      }
    }

    /** The third step of `updateEnemies`: bullets are walked from the last; one that hits
        an enemy removes it and itself, scores, may drop an item and explodes. */
    method ResolveHits(draws: nat -> DropDraw)
      modifies this`enemies, this`bullets, this`score, this`enemiesKilled
      modifies this`powerUps, this`powerupsDroppedThisWave, this`particles
      ensures var r := KillPass(old(enemies), old(bullets), old(score), old(powerUps),
                                old(powerupsDroppedThisWave), old(particles), draws, difficulty.scoreMultiplier);
              enemies == r.enemies && bullets == r.survivors && score == r.score &&
              enemiesKilled == old(enemiesKilled) + r.kills &&
              powerUps == r.powerUps && powerupsDroppedThisWave == r.dropped && particles == r.particles
      ensures Snapshot() == KillPhase(old(Snapshot()), draws, difficulty.scoreMultiplier)
    {
      ghost var w0 := Snapshot();
      ghost var b0, k0 := w0.bullets, w0.kills;
      ghost var st0 := KillState(w0.enemies, [], w0.score, 0, w0.powerUps, w0.dropped, w0.particles);
      var m := difficulty.scoreMultiplier;
      var kills := 0;
      var i := |bullets|;
      while i > 0
        invariant 0 <= i <= |b0|
        invariant Mirrors(ResolveFromEnd(st0, b0[i..], draws, m), b0[..i], kills, k0)
      {
        i := i - 1;
        kills := HitAt(i, b0, st0, draws, m, kills, k0);
      }
      assert b0[0..] == b0 && b0[..0] == [];
      ghost var r := ResolveFromEnd(st0, b0, draws, m);
      assert Mirrors(r, [], kills, k0);
      assert bullets == r.survivors;
    }

    /** One iteration of the bullet loop of `updateEnemies`, on the bullet at index i;
        `kills` counts the kills of the tick so far. */
    method HitAt(i: nat, ghost b0: seq<Bullet>, ghost st0: KillState, draws: nat -> DropDraw, m: real,
                 kills: nat, ghost k0: int) returns (kills': nat)
      requires i < |b0| && Mirrors(ResolveFromEnd(st0, b0[i + 1..], draws, m), b0[..i + 1], kills, k0)
      modifies this`enemies, this`bullets, this`score, this`enemiesKilled
      modifies this`powerUps, this`powerupsDroppedThisWave, this`particles
      ensures Mirrors(ResolveFromEnd(st0, b0[i..], draws, m), b0[..i], kills', k0)
    {
      ghost var st := ResolveFromEnd(st0, b0[i + 1..], draws, m);
      ResolveStep(st0, b0, i, draws, m);
      PrefixStep(b0, i);
      assert Mirrors(st, b0[..i] + [b0[i]], kills, k0);
      var b := bullets[i];
      assert b == b0[i];
      var j := TargetOf(b);
      if j >= 0 {
        Destroy(i, j, b0[..i], b, st, draws, m, kills, k0);
        kills' := kills + 1;
      } else {
        assert bullets == b0[..i] + ([b] + st.survivors);
        kills' := kills;
      }
    }

    /** The hit branch of `updateEnemies`: bullet i destroys enemy j, its target, and the
        game's fields follow ResolveBullet: the kill scores, an item may drop, and the
        enemy explodes. */
    method Destroy(i: nat, j: nat, ghost pre: seq<Bullet>, b: Bullet, ghost st: KillState,
                   draws: nat -> DropDraw, m: real, kills: nat, ghost k0: int)
      requires |pre| == i && j as int == TargetIndex(st.enemies, b)
      requires Mirrors(st, pre + [b], kills, k0)
      modifies this`enemies, this`bullets, this`score, this`enemiesKilled
      modifies this`powerUps, this`powerupsDroppedThisWave, this`particles
      ensures Mirrors(ResolveBullet(st, b, draws, m), pre, kills + 1, k0)
    {
      var e := enemies[j];
      var draw := draws(kills);
      Splice(pre, b, st.survivors);
      enemies := enemies[..j] + enemies[j + 1..];
      bullets := bullets[..i] + bullets[i + 1..];
      enemiesKilled := enemiesKilled + 1;
      score := score + KillScore(e.points, m);
      if draw.roll < DropChance && powerupsDroppedThisWave < MaxDropsPerWave && |powerUps| < MaxPowerUpsOnScreen {
        powerUps := powerUps + [NewPowerUp(e.x + EnemyWidth / 2.0, e.y, PowerUpTypeAt(draw.pick), draw.drift)];
        powerupsDroppedThisWave := powerupsDroppedThisWave + 1;
      }
      particles := particles + Burst(ExplosionParticles, ExplosionLife);
    }

    /** The game's fields agree with a state of the bullet pass that has `pending` still
        to process. */
    ghost predicate Mirrors(st: KillState, pending: seq<Bullet>, kills: int, k0: int)
      reads this
    {
      enemies == st.enemies && bullets == pending + st.survivors && score == st.score &&
      kills == st.kills && enemiesKilled == k0 + kills &&
      powerUps == st.powerUps && powerupsDroppedThisWave == st.dropped && particles == st.particles
    }

    /** `updateEnemies`: move, check the bottom line, then resolve bullet hits. */
    method UpdateEnemies(draws: nat -> DropDraw)
      modifies this`enemies, this`lives, this`bullets, this`score, this`enemiesKilled
      modifies this`powerUps, this`powerupsDroppedThisWave, this`particles
      ensures var moved := MovedAll(old(enemies));
              var r := KillPass(moved, old(bullets), old(score), old(powerUps),
                                old(powerupsDroppedThisWave), old(particles), draws, difficulty.scoreMultiplier);
              lives == (if ReachedBottom(moved) then 0 else old(lives)) &&
              enemies == r.enemies && bullets == r.survivors && score == r.score &&
              enemiesKilled == old(enemiesKilled) + r.kills &&
              powerUps == r.powerUps && powerupsDroppedThisWave == r.dropped && particles == r.particles
      ensures Snapshot() == EnemyPhase(old(Snapshot()), draws, difficulty.scoreMultiplier)
    {
      MoveEnemies();
      CheckBottom();
      ResolveHits(draws);
    }

    /** `updateEnemyBullets`: walked from the last; each falls, and is removed below the
        bottom edge, or absorbed by an active shield, or on hitting the ship costs a life;
        each absorption and hit makes an explosion. */
    method UpdateEnemyBullets()
      modifies this`enemyBullets, this`lives, this`particles
      ensures var shieldOn := powerUpManager.HasPowerUp(Shield);
              enemyBullets == EnemyBulletsAfter(old(enemyBullets), player, shieldOn) &&
              lives == old(lives) - Hits(old(enemyBullets), player, shieldOn) &&
              particles == old(particles) + Burst(Blasts(old(enemyBullets), player, shieldOn) * ExplosionParticles, ExplosionLife)
      ensures powerUpManager.Valid() ==> Snapshot() == EnemyBulletPhase(old(Snapshot()))
    {
      ghost var w0 := Snapshot();
      ghost var b0, l0, ps0 := w0.enemyBullets, w0.lives, w0.particles;
      var ship, shieldOn := player, powerUpManager.HasPowerUp(Shield);
      var i := |enemyBullets|;
      while i > 0
        invariant 0 <= i <= |b0|
        invariant EnemyPassAt(i, b0, l0, ps0, ship, shieldOn)
      {
        i := i - 1;
        EnemyBulletAt(i, b0, l0, ps0, ship, shieldOn);
      }
      assert b0[..0] == [] && b0[0..] == b0;
    }

    /** The game's enemy bullets, lives and particles are those of the pass over
        enemy bullets once indices i and above are done. */
    ghost predicate EnemyPassAt(i: nat, b0: seq<EnemyBullet>, l0: int, ps0: seq<int>, ship: Player, shieldOn: bool)
      requires i <= |b0|
      reads this
    {
      enemyBullets == b0[..i] + EnemyBulletsAfter(b0[i..], ship, shieldOn) &&
      lives == l0 - Hits(b0[i..], ship, shieldOn) &&
      particles == ps0 + Burst(Blasts(b0[i..], ship, shieldOn) * ExplosionParticles, ExplosionLife)
    }

    /** One iteration of `updateEnemyBullets`, on the bullet at index i. */
    method EnemyBulletAt(i: nat, ghost b0: seq<EnemyBullet>, ghost l0: int, ghost ps0: seq<int>, ship: Player, shieldOn: bool)
      requires i < |b0| && EnemyPassAt(i + 1, b0, l0, ps0, ship, shieldOn)
      modifies this`enemyBullets, this`lives, this`particles
      ensures EnemyPassAt(i, b0, l0, ps0, ship, shieldOn)
    {
      assert enemyBullets[i] == b0[..i + 1][i] == b0[i];
      var b := enemyBullets[i].Advanced();
      if b.y > GameHeight {
        EnemyBulletGone(i, b, 0, b0, l0, ps0, ship, shieldOn);
      } else if shieldOn && ShieldCatches(ship, b) {
        EnemyBulletGone(i, b, 0, b0, l0, ps0, ship, shieldOn);
      } else if Overlaps(b.Box(), ship.Box()) {
        EnemyBulletGone(i, b, 1, b0, l0, ps0, ship, shieldOn);
      } else {
        EnemyBulletFlies(i, b, b0, l0, ps0, ship, shieldOn);
      }
    }

    /** An enemy bullet that leaves the screen, is absorbed by the shield, or hits the
        ship is removed; the last two explode, and a hit costs a life. */
    method EnemyBulletGone(i: nat, b: EnemyBullet, cost: int, ghost b0: seq<EnemyBullet>, ghost l0: int,
                           ghost ps0: seq<int>, ship: Player, shieldOn: bool)
      requires i < |b0| && EnemyPassAt(i + 1, b0, l0, ps0, ship, shieldOn)
      requires b == b0[i].Advanced() && FateOf(b, ship, shieldOn) != Flying
      requires cost == if FateOf(b, ship, shieldOn) == HitsPlayer then 1 else 0
      modifies this`enemyBullets, this`lives, this`particles
      ensures EnemyPassAt(i, b0, l0, ps0, ship, shieldOn)
    {
      ghost var blasts := Blasts(b0[i + 1..], ship, shieldOn);
      ghost var rest := EnemyBulletsAfter(b0[i + 1..], ship, shieldOn);
      EnemyBulletStep(b0, i, ship, shieldOn);
      PrefixStep(b0, i);
      assert enemyBullets == b0[..i] + [b0[i]] + rest;
      Replace(b0[..i], b0[i], b, rest);
      enemyBullets := enemyBullets[i := b];
      Splice(b0[..i], b, rest);
      if b.y > GameHeight {
        enemyBullets := enemyBullets[..i] + enemyBullets[i + 1..];
      } else {
        Explode(i, cost, ps0, blasts);
      }
      assert EnemyBulletsAfter(b0[i..], ship, shieldOn) == [] + rest == rest;
      assert enemyBullets == b0[..i] + rest;
    }

    /** Any other enemy bullet stays, one step lower. */
    method EnemyBulletFlies(i: nat, b: EnemyBullet, ghost b0: seq<EnemyBullet>, ghost l0: int,
                            ghost ps0: seq<int>, ship: Player, shieldOn: bool)
      requires i < |b0| && EnemyPassAt(i + 1, b0, l0, ps0, ship, shieldOn)
      requires b == b0[i].Advanced() && FateOf(b, ship, shieldOn) == Flying
      modifies this`enemyBullets
      ensures EnemyPassAt(i, b0, l0, ps0, ship, shieldOn)
    {
      ghost var rest := EnemyBulletsAfter(b0[i + 1..], ship, shieldOn);
      EnemyBulletStep(b0, i, ship, shieldOn);
      PrefixStep(b0, i);
      assert enemyBullets == b0[..i] + [b0[i]] + rest;
      Replace(b0[..i], b0[i], b, rest);
      enemyBullets := enemyBullets[i := b];
      assert EnemyBulletsAfter(b0[i..], ship, shieldOn) == [b] + rest;
      assert enemyBullets == b0[..i] + [b] + rest == b0[..i] + ([b] + rest);
    }

    /** An enemy bullet at index i explodes, costing `cost` lives (0 when the shield
        absorbs it, 1 when it hits the ship). */
    method Explode(i: nat, cost: int, ghost ps0: seq<int>, ghost blasts: nat)
      requires i < |enemyBullets|
      requires particles == ps0 + Burst(blasts * ExplosionParticles, ExplosionLife)
      modifies this`enemyBullets, this`lives, this`particles
      ensures enemyBullets == old(enemyBullets)[..i] + old(enemyBullets)[i + 1..]
      ensures lives == old(lives) - cost
      ensures particles == ps0 + Burst((blasts + 1) * ExplosionParticles, ExplosionLife)
    {
      enemyBullets := enemyBullets[..i] + enemyBullets[i + 1..];
      lives := lives - cost;
      BurstAppend(blasts * ExplosionParticles, ExplosionParticles, ExplosionLife);
      particles := particles + Burst(ExplosionParticles, ExplosionLife);
    }

    /** `enemyActions`: on every `enemySpawnRate`-th tick a randomly picked enemy fires
        from the middle of its bottom edge. */
    method EnemyActions(pick: Random01)
      requires difficulty.Valid()
      modifies this`enemyBullets
      ensures FiresAt(gameTime, difficulty) && |enemies| > 0 ==>
                enemyBullets == old(enemyBullets) + [EnemyShot(enemies[FireIndex(pick, |enemies|)], difficulty)]
      ensures !(FiresAt(gameTime, difficulty) && |enemies| > 0) ==> enemyBullets == old(enemyBullets)
      ensures Snapshot() == FirePhase(old(Snapshot()), pick, difficulty)
    {
      if gameTime % difficulty.enemySpawnRate == 0 && |enemies| > 0 {
        var shooter := enemies[FireIndex(pick, |enemies|)];
        var speed := EnemyBulletSpeed * difficulty.enemyBulletSpeedMultiplier;
        enemyBullets := enemyBullets + [EnemyBullet(shooter.x + EnemyWidth / 2.0, shooter.y + EnemyHeight, speed)];
      }
    }

    /** `endGame`: the game is over and its summary is added to the statistics. */
    method EndGame(timestamp: string)
      modifies this`state, stats
      ensures state == GameOver
      ensures stats.history == old(stats.history) + [Summary()]
      ensures old(stats.Valid()) ==> stats.Valid()
      ensures stats.Current() == Record(old(stats.Current()), Summary())
      ensures var g := Summary();
              stats.lastGameStats == Some(LastGame(g.score, g.wave, g.powerupsCollected, g.playtime, g.difficulty, timestamp))
      ensures old(lives) <= 0 ==> Snapshot() == EndPhase(old(Snapshot()))
    {
      state := GameOver;
      stats.RecordGameEnd(Summary(), timestamp);
    }

    /** The first part of `update`: the tick count, the ship, the power-up timers and the
        falling items. */
    method TickPowerUps(input: TickInput)
      requires Steady()
      modifies this`gameTime, this`player, this`powerUps, this`powerupCollected, this`particles, powerUpManager
      ensures Steady()
      ensures gameTime == old(gameTime) + 1 && player == old(player).Moved(input.left, input.right)
      ensures var kinds := CollectedKinds(old(powerUps), player);
              powerUpManager.Model() == PickupAll(old(powerUpManager.Model()).Purge(input.now), kinds, input.now) &&
              powerupCollected == old(powerupCollected) + |kinds|
      ensures |powerUps| <= |old(powerUps)|
      ensures Snapshot() == PowerUpPhase(MovePhase(old(Snapshot()), input.left, input.right), input.now)
    {
      gameTime := gameTime + 1;
      player := player.Moved(input.left, input.right);
      assert Snapshot() == MovePhase(old(Snapshot()), input.left, input.right);
      RefreshPowerUps(input.now);
    }

    /** The power-up timers expire, then the falling items are walked. */
    method RefreshPowerUps(now: int)
      requires Steady()
      modifies this`powerUps, this`powerupCollected, this`particles, powerUpManager
      ensures Steady()
      ensures var kinds := CollectedKinds(old(powerUps), player);
              powerUpManager.Model() == PickupAll(old(powerUpManager.Model()).Purge(now), kinds, now) &&
              powerupCollected == old(powerupCollected) + |kinds|
      ensures |powerUps| <= |old(powerUps)|
      ensures Snapshot() == PowerUpPhase(old(Snapshot()), now)
      ensures gameTime == old(gameTime) && player == old(player)
    {
      powerUpManager.Update(now);
      assert Snapshot() == ExpirePhase(old(Snapshot()), now);
      UpdatePowerUps(now);
      ItemAccounting(old(powerUps), player);
    }

    /** The middle part of `update`: player bullets and enemies move and collide. Each
        kill is worth the wave's KillScore, at most one enemy goes per bullet, and the
        drop caps still hold afterwards. */
    method Combat(draws: nat -> DropDraw) returns (ghost killed: nat)
      requires Steady()
      modifies this`enemies, this`lives, this`bullets, this`score, this`enemiesKilled
      modifies this`powerUps, this`powerupsDroppedThisWave, this`particles
      ensures enemiesKilled == old(enemiesKilled) + killed && |enemies| + killed == |old(enemies)|
      ensures score == old(score) + killed * KillScore(EnemyPoints(wave), difficulty.scoreMultiplier)
      ensures score >= old(score) + killed
      ensures Steady()
      ensures lives == if ReachedBottom(MovedAll(old(enemies))) then 0 else old(lives)
      ensures Snapshot() == EnemyPhase(BulletPhase(old(Snapshot())), draws, difficulty.scoreMultiplier)
      ensures gameTime == old(gameTime) && player == old(player) && powerUpManager.Model() == old(powerUpManager.Model()) &&
              powerupCollected == old(powerupCollected)
    {
      ghost var moved := MovedAll(enemies);
      assert AllWorth(moved, EnemyPoints(wave)) by {
        assert forall k :: 0 <= k < |moved| ==> moved[k].points == old(enemies)[k].points;
      }
      UpdateBullets();
      ghost var st0 := KillState(moved, [], score, 0, powerUps, powerupsDroppedThisWave, particles);
      ResolveFacts(st0, bullets, draws, difficulty.scoreMultiplier, EnemyPoints(wave));
      UpdateEnemies(draws);
      killed := enemiesKilled - old(enemiesKilled);
      KillsAddPoints(killed, wave, difficulty);
    }

    /** The part of `update` after the collisions: enemy bullets, particle aging and
        enemy fire. No life is ever gained here. */
    method Aftermath(firePick: Random01)
      requires Steady()
      modifies this`enemyBullets, this`lives, this`particles
      ensures Steady()
      ensures lives <= old(lives)
      ensures Snapshot() == FirePhase(AgePhase(EnemyBulletPhase(old(Snapshot()))), firePick, difficulty)
      ensures enemies == old(enemies) && score == old(score) && enemiesKilled == old(enemiesKilled)
    {
      UpdateEnemyBullets();
      ghost var w1 := Snapshot();
      particles := AgeParticles(particles);
      assert Snapshot() == AgePhase(w1);
      EnemyActions(firePick);
    }

    /** The wave-clear branch of `update`: the next wave starts with its drop counter reset,
        the tier unlocked if the new wave is 2 or 5 (with a burst of 32 sparkles), and a
        fresh formation. */
    method NextWave()
      requires wave >= 1 && bulletLevel == TierFor(wave)
      modifies this`wave, this`powerupsDroppedThisWave, this`bulletLevel, this`particles, this`enemies
      ensures wave == old(wave) + 1 && powerupsDroppedThisWave == 0 && bulletLevel == TierFor(wave)
      ensures enemies == SpawnGrid(wave, difficulty) && AllWorth(enemies, EnemyPoints(wave))
      ensures particles == old(particles) + (if Unlocks(old(bulletLevel), wave) then Burst(UpgradeParticles, FireworkLife) else [])
      ensures Snapshot() == NextWavePhase(old(Snapshot()), difficulty)
    {
      ghost var w0 := Snapshot();
      wave := wave + 1;
      powerupsDroppedThisWave := 0;
      ghost var w1 := Snapshot();
      assert w1 == w0.(wave := w0.wave + 1, dropped := 0);
      TierAdvances(wave - 1);
      Upgrade();
      SpawnWave();
    }

    /** The unlock chain of `nextWave`: reaching wave 2 unlocks tier 2 and wave 5 tier 3,
        each with a burst of 32 sparkles. */
    method Upgrade()
      modifies this`bulletLevel, this`particles
      ensures bulletLevel == NextBulletLevel(old(bulletLevel), wave)
      ensures particles == old(particles) + (if Unlocks(old(bulletLevel), wave) then Burst(UpgradeParticles, FireworkLife) else [])
      ensures var w := old(Snapshot());
              Snapshot() == w.(bulletLevel := NextBulletLevel(w.bulletLevel, w.wave),
                               particles := w.particles + (if Unlocks(w.bulletLevel, w.wave) then Burst(UpgradeParticles, FireworkLife) else []))
    {
      if wave == 2 && bulletLevel < 2 {
        bulletLevel := 2;
        particles := particles + Burst(UpgradeParticles, FireworkLife);
      } else if wave == 5 && bulletLevel < 3 {
        bulletLevel := 3;
        particles := particles + Burst(UpgradeParticles, FireworkLife);
      }
    }

    /** The phases of `update` up to the wave and game-over checks, on a running game. */
    method Play(input: TickInput) returns (ghost killed: nat)
      requires Steady() && lives > 0
      modifies this`gameTime, this`player, this`powerUps, this`powerupCollected, this`particles, powerUpManager
      modifies this`enemies, this`lives, this`bullets, this`score, this`enemiesKilled
      modifies this`powerupsDroppedThisWave, this`enemyBullets
      ensures Steady()
      ensures gameTime == old(gameTime) + 1 && player == old(player).Moved(input.left, input.right)
      ensures enemiesKilled == old(enemiesKilled) + killed && |enemies| + killed == |old(enemies)|
      ensures score == old(score) + killed * KillScore(EnemyPoints(wave), difficulty.scoreMultiplier)
      ensures score >= old(score)
      ensures lives <= old(lives) && (ReachedBottom(MovedAll(old(enemies))) ==> lives <= 0)
      ensures var kinds := CollectedKinds(old(powerUps), player);
              powerUpManager.Model() == PickupAll(old(powerUpManager.Model()).Purge(input.now), kinds, input.now) &&
              powerupCollected == old(powerupCollected) + |kinds|
      ensures Snapshot() == PlayPhases(old(Snapshot()), input, difficulty)
      ensures wave == old(wave) && state == old(state) && bulletsFired == old(bulletsFired)
    {
      TickPowerUps(input);
      killed := Combat(input.draws);
      Aftermath(input.firePick);
    }

    /** `update` on a running game: the tick advances, the ship moves, power-ups expire
        and are collected, bullets and enemies move and collide, enemies may fire; a
        cleared formation starts the next wave; no lives left ends the game. */
    method Tick(input: TickInput) returns (ghost killed: nat)
      requires Valid() && state == Playing
      modifies this, powerUpManager, stats
      ensures Valid()
      ensures gameTime == old(gameTime) + 1 &&
              player == old(player).Moved(input.left, input.right) &&
              bulletsFired == old(bulletsFired)
      ensures enemiesKilled == old(enemiesKilled) + killed && killed <= |old(enemies)| &&
              score == old(score) + killed * KillScore(EnemyPoints(old(wave)), difficulty.scoreMultiplier) &&
              (wave == old(wave) + 1 <==> killed == |old(enemies)|) &&
              (wave == old(wave) || wave == old(wave) + 1) &&
              (wave == old(wave) + 1 ==> enemies == SpawnGrid(wave, difficulty) && powerupsDroppedThisWave == 0)
      ensures lives <= old(lives) && (ReachedBottom(MovedAll(old(enemies))) ==> state == GameOver)
      ensures var kinds := CollectedKinds(old(powerUps), player);
              powerUpManager.Model() == PickupAll(old(powerUpManager.Model()).Purge(input.now), kinds, input.now) &&
              powerupCollected == old(powerupCollected) + |kinds|
      ensures state == GameOver ==> stats.history == old(stats.history) + [Summary()]
      ensures state == GameOver ==> stats.Current() == Record(old(stats.Current()), Summary())
      ensures state == Playing ==> stats.history == old(stats.history) && stats.Current() == old(stats.Current())
      ensures old(stats.Valid()) ==> stats.Valid()
      ensures Snapshot() == Step(old(Snapshot()), input, difficulty)
    {
      killed := Play(input);
      Finish(input.timestamp);
    }

    /** The end of `update`: a cleared formation starts the next wave, and no lives left
        ends the game. */
    method Finish(timestamp: string)
      requires Steady() && state == Playing
      modifies this`wave, this`powerupsDroppedThisWave, this`bulletLevel, this`particles, this`enemies
      modifies this`state, stats
      ensures Valid()
      ensures |old(enemies)| == 0 ==>
                wave == old(wave) + 1 && powerupsDroppedThisWave == 0 &&
                enemies == SpawnGrid(wave, difficulty) && AllWorth(enemies, EnemyPoints(wave))
      ensures |old(enemies)| != 0 ==>
                wave == old(wave) && powerupsDroppedThisWave == old(powerupsDroppedThisWave) && enemies == old(enemies)
      ensures lives <= 0 ==> state == GameOver && stats.history == old(stats.history) + [Summary()]
      ensures lives <= 0 ==> stats.Current() == Record(old(stats.Current()), Summary())
      ensures lives > 0 ==> state == old(state) && stats.history == old(stats.history) && stats.Current() == old(stats.Current())
      ensures old(stats.Valid()) ==> stats.Valid()
      ensures Snapshot() == EndPhase(WavePhase(old(Snapshot()), difficulty))
      ensures gameTime == old(gameTime) && player == old(player) && lives == old(lives) &&
              score == old(score) && enemiesKilled == old(enemiesKilled) && bulletsFired == old(bulletsFired) &&
              powerupCollected == old(powerupCollected) && powerUpManager.Model() == old(powerUpManager.Model())
    {
      if |enemies| == 0 {
        NextWave();
      }
      if lives <= 0 {
        EndGame(timestamp);
      }
    }

    /** `update`: one tick of the game, and nothing at all once the game is over. */
    method Update(input: TickInput)
      requires Valid()
      modifies this, powerUpManager, stats
      ensures Valid()
      ensures old(state) == GameOver ==> unchanged(this) && unchanged(powerUpManager) && unchanged(stats)
      ensures old(state) == Playing ==> Snapshot() == Step(old(Snapshot()), input, difficulty)
    {
      if state != Playing {
        return;
      }
      var _ := Tick(input);
    }

    /** `shoot` as the fire key, touch button and mouse call it: the ship's volley is added
        and counted, in any state of the game. */
    method Fire()
      modifies this`bullets, this`bulletsFired
      ensures var r := player.Shoot(old(bullets), wave, powerUpManager.HasPowerUp(MultiShot), bulletLevel);
              bullets == r.bullets && bulletsFired == old(bulletsFired) + r.created
      ensures old(bullets) < bullets && bulletsFired > old(bulletsFired)
    {
      var r := player.Shoot(bullets, wave, powerUpManager.HasPowerUp(MultiShot), bulletLevel);
      bullets := r.bullets;
      bulletsFired := bulletsFired + r.created;
    }

    /** One firing of the 100 ms rapid-fire timer: it shoots while the game is running and
        Rapid Fire is active, paused or not. */
    method RapidFireTick()
      modifies this`bullets, this`bulletsFired
      ensures state == Playing && powerUpManager.HasPowerUp(RapidFire) ==>
                var r := player.Shoot(old(bullets), wave, powerUpManager.HasPowerUp(MultiShot), bulletLevel);
                bullets == r.bullets && bulletsFired == old(bulletsFired) + r.created
      ensures !(state == Playing && powerUpManager.HasPowerUp(RapidFire)) ==>
                bullets == old(bullets) && bulletsFired == old(bulletsFired)
    {
      if state == Playing && powerUpManager.HasPowerUp(RapidFire) {
        Fire();
      }
    }

    /** `togglePause`: flips the pause flag, only while the game is running. */
    method TogglePause()
      modifies this`isPaused
      ensures isPaused == if state == Playing then !old(isPaused) else old(isPaused)
    {
      if state != Playing {
        return;
      }
      isPaused := !isPaused;
    }

    /** One animation frame of `gameLoop`: the tick runs unless the game is paused. */
    method Frame(input: TickInput)
      requires Valid()
      modifies this, powerUpManager, stats
      ensures Valid()
      ensures old(isPaused) ==> unchanged(this) && unchanged(powerUpManager) && unchanged(stats)
      ensures !old(isPaused) && old(state) == Playing ==> Snapshot() == Step(old(Snapshot()), input, difficulty)
    {
      if !isPaused {
        Update(input);
      }
    }
  }
}
