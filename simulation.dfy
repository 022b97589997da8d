/** The rules of one simulation tick, as functions on values: scoring, bullet tiers,
    the wave formation, and each pass the tick makes over an entity list. The game
    object's methods are proved to compute exactly these. */
module Simulation {
  import opened Config
  import opened Geometry
  import opened Entities
  import opened PowerUps

  // ---------------------------------------------------------------------------
  // Scoring

  /** `Math.ceil(points * scoreMultiplier)`. */
  function KillScore(points: int, m: real): int
  {
    Ceil(points as real * m)
  }

  /** On Normal, the first enemy killed in wave 1 is worth 15. */
  lemma FirstKillOnNormal()
    ensures KillScore(EnemyPoints(1), Normal.scoreMultiplier) == 15
  {
  }

  /** On Easy the half multiplier rounds up: 7.5 becomes 8. */
  lemma FirstKillOnEasy()
    ensures KillScore(EnemyPoints(1), Easy.scoreMultiplier) == 8
  {
  }

  /** A kill is always worth at least one point, and later waves are never worth less. */
  lemma KillScoreGrows(w1: int, w2: int, d: Difficulty)
    requires d.Valid() && 1 <= w1 <= w2
    ensures 1 <= KillScore(EnemyPoints(w1), d.scoreMultiplier) <= KillScore(EnemyPoints(w2), d.scoreMultiplier)
  {
    var m := d.scoreMultiplier;
    assert EnemyPoints(w1) as real * m <= EnemyPoints(w2) as real * m;
  }

  /** Each kill adds at least one point, so a pass that kills never lowers the score. */
  lemma KillsAddPoints(killed: int, wave: int, d: Difficulty)
    requires d.Valid() && wave >= 1 && killed >= 0
    ensures killed * KillScore(EnemyPoints(wave), d.scoreMultiplier) >= killed
  {
    var ks := KillScore(EnemyPoints(wave), d.scoreMultiplier);
    KillScoreGrows(wave, wave, d);
    assert killed * ks == killed + killed * (ks - 1);
  }

  // ---------------------------------------------------------------------------
  // Bullet tiers

  /** The tier a game has reached once it is in the given wave. */
  function TierFor(wave: int): int {
    if wave >= 5 then 3 else if wave >= 2 then 2 else 1
  }

  /** Whether reaching `newWave` unlocks a tier (and plays the upgrade effect). */
  predicate Unlocks(bulletLevel: int, newWave: int) {
    (newWave == 2 && bulletLevel < 2) || (newWave == 5 && bulletLevel < 3)
  }

  /** The unlock chain run when a wave is cleared. */
  function NextBulletLevel(bulletLevel: int, newWave: int): (l: int)
    ensures l >= bulletLevel
    ensures l != bulletLevel <==> Unlocks(bulletLevel, newWave)
  {
    if newWave == 2 && bulletLevel < 2 then 2
    else if newWave == 5 && bulletLevel < 3 then 3
    else bulletLevel
  }

  /** Advancing one wave keeps the tier equal to TierFor of the wave, and an unlock
      happens exactly on reaching waves 2 and 5. */
  lemma TierAdvances(wave: int)
    requires wave >= 1
    ensures NextBulletLevel(TierFor(wave), wave + 1) == TierFor(wave + 1)
    ensures Unlocks(TierFor(wave), wave + 1) <==> wave + 1 == 2 || wave + 1 == 5
  {
  }

  /** Tiers never go down as waves go up. */
  lemma TierMonotone(w1: int, w2: int)
    requires w1 <= w2
    ensures TierFor(w1) <= TierFor(w2)
  {
  }

  // ---------------------------------------------------------------------------
  // The wave formation

  const GridRows: nat := 3
  const GridCols: nat := 6
  const GridSpacing: real := 90.0
  const GridStartX: real := 50.0
  const GridStartY: real := 30.0

  /** The enemy in grid slot k, row by row. */
  function GridEnemy(k: nat, wave: int, d: Difficulty): Enemy {
    NewEnemy(GridStartX + (k % GridCols) as real * GridSpacing,
             GridStartY + (k / GridCols) as real * GridSpacing, wave, d)
  }

  /** The formation `spawnWave` builds. */
  function SpawnGrid(wave: int, d: Difficulty): (es: seq<Enemy>)
    ensures |es| == GridRows * GridCols
  {
    seq(GridRows * GridCols, k requires 0 <= k => GridEnemy(k, wave, d))
  }

  /** Enemy i of a fresh formation sits in column i % 6 and row i / 6 of the 90 px grid
      whose first slot is (50, 30), heads right, and has the wave's speed and points; no
      two enemies overlap, all of them lie between the side walls, and none is at the
      bottom line. */
  lemma SpawnGridLayout(wave: int, d: Difficulty, i: nat, j: nat)
    requires i < GridRows * GridCols && j < GridRows * GridCols
    ensures var es := SpawnGrid(wave, d);
            es[i].x == 50.0 + 90.0 * (i % 6) as real && es[i].y == 30.0 + 90.0 * (i / 6) as real &&
            es[i].direction == 1 && es[i].speed == EnemySpeed(wave, d) && es[i].points == EnemyPoints(wave)
    ensures var es := SpawnGrid(wave, d);
            (i != j ==> !Overlaps(es[i].Box(), es[j].Box())) &&
            0.0 < es[i].x && es[i].x + EnemyWidth < GameWidth &&
            es[i].y + EnemyHeight <= GameHeight - 50.0
  {
    var ci, cj, ri, rj := i % GridCols, j % GridCols, i / GridCols, j / GridCols;
    assert i == ri * GridCols + ci && j == rj * GridCols + cj;
    if i != j {
      assert ci != cj || ri != rj;
      if ci != cj {
        assert ci < cj || cj < ci;
      }
    }
  }

  /** Slot `row * 6 + col` is in row `row` and column `col`. */
  lemma GridSlot(row: nat, col: nat)
    requires col < GridCols
    ensures (row * GridCols + col) % GridCols == col && (row * GridCols + col) / GridCols == row
  {
    ModOfMultiplePlus(row, GridCols, col);
  }

  // ---------------------------------------------------------------------------
  // Player bullets

  /** `updateBullets`: every bullet moves; those that pass the top edge are dropped. */
  function AdvanceBullets(s: seq<Bullet>): seq<Bullet> {
    if s == [] then []
    else
      var b := s[0].Advanced();
      (if b.y < 0.0 then [] else [b]) + AdvanceBullets(s[1..])
  }

  /** Every bullet kept by the pass is an old one moved one step and still on the field,
      every old bullet still on the field after its step is kept, none is added, and none
      is lost that was at least one step below the edge. */
  lemma {:induction false} AdvanceBulletsFacts(s: seq<Bullet>)
    ensures var r := AdvanceBullets(s);
            |r| <= |s| &&
            (forall k :: 0 <= k < |r| ==> r[k].y >= 0.0 && exists i :: 0 <= i < |s| && r[k] == s[i].Advanced()) &&
            (forall i :: 0 <= i < |s| && s[i].Advanced().y >= 0.0 ==> s[i].Advanced() in r) &&
            ((forall k :: 0 <= k < |s| ==> s[k].y >= BulletSpeed) ==> |r| == |s|)
  {
    if s != [] {
      var t := s[1..];
      AdvanceBulletsFacts(t);
      assert forall k :: 1 <= k < |s| ==> t[k - 1] == s[k];
      var b := s[0].Advanced();
      var h := if b.y < 0.0 then [] else [b];
      var rest := AdvanceBullets(t);
      var r := h + rest;
      forall k | 0 <= k < |r|
        ensures exists i :: 0 <= i < |s| && r[k] == s[i].Advanced()
      {
        if k < |h| {
          assert r[k] == s[0].Advanced();
        } else {
          var i' :| 0 <= i' < |t| && rest[k - |h|] == t[i'].Advanced();
          assert r[k] == s[i' + 1].Advanced();
        }
      }
    }
  }

  // ---------------------------------------------------------------------------
  // Enemies

  /** `enemies.forEach(enemy => enemy.update())`. */
  function MovedAll(es: seq<Enemy>): (r: seq<Enemy>)
    ensures |r| == |es| && forall k :: 0 <= k < |es| ==> r[k] == es[k].Moved()
  {
    seq(|es|, k requires 0 <= k < |es| => es[k].Moved())
  }

  /** Some enemy's bottom edge is below the line 50 px above the bottom of the field. */
  predicate ReachedBottom(es: seq<Enemy>) {
    exists k :: 0 <= k < |es| && es[k].y + EnemyHeight > GameHeight - 50.0
  }

  // ---------------------------------------------------------------------------
  // Bullets against enemies

  const DropChance: real := 0.2
  const MaxDropsPerWave: int := 4
  const MaxPowerUpsOnScreen: int := 4

  /** Particle bursts, by count and by starting life. */
  const ExplosionParticles: nat := 8
  const ExplosionLife: int := 30
  const CollectParticles: nat := 16
  const UpgradeParticles: nat := 32
  const FireworkLife: int := 50

  function Burst(n: nat, life: int): seq<int> {
    seq(n, _ => life)
  }

  lemma BurstAppend(a: nat, b: nat, life: int)
    ensures Burst(a, life) + Burst(b, life) == Burst(a + b, life)
  {
  }

  /** The three `Math.random()` values a kill may use: the drop roll, the drop's kind and
      the drop's drift. */
  datatype DropDraw = DropDraw(roll: Random01, pick: Random01, drift: Random01)

  /** What the bullet pass updates: the enemies, the bullets it has kept so far, the score,
      the kills made so far in this pass, the falling items, the drops this wave and the
      particles. */
  datatype KillState = KillState(
    enemies: seq<Enemy>, survivors: seq<Bullet>, score: int, kills: nat,
    powerUps: seq<PowerUpItem>, dropped: int, particles: seq<int>)

  /** The enemy a bullet destroys: the highest-indexed one it overlaps, or -1. */
  function TargetIndex(es: seq<Enemy>, b: Bullet): (j: int)
    ensures -1 <= j < |es|
    ensures j >= 0 ==> Overlaps(b.Box(), es[j].Box())
    ensures forall k :: j < k < |es| ==> !Overlaps(b.Box(), es[k].Box())
    decreases |es|
  {
    if es == [] then -1
    else if Overlaps(b.Box(), es[|es| - 1].Box()) then |es| - 1
    else TargetIndex(es[..|es| - 1], b)
  }

  /** Whether a kill drops an item: the 20% roll, and both caps. */
  predicate Drops(st: KillState, draw: DropDraw) {
    draw.roll < DropChance && st.dropped < MaxDropsPerWave && |st.powerUps| < MaxPowerUpsOnScreen
  }

  /** One bullet of the pass: it destroys its target, scores, may drop an item and
      explodes; with no target it is kept. The k-th kill of the pass uses draws(k). */
  function ResolveBullet(st: KillState, b: Bullet, draws: nat -> DropDraw, m: real): KillState {
    var j := TargetIndex(st.enemies, b);
    if j < 0 then st.(survivors := [b] + st.survivors)
    else
      var e := st.enemies[j];
      var draw := draws(st.kills);
      var drop := Drops(st, draw);
      KillState(
        st.enemies[..j] + st.enemies[j + 1..],
        st.survivors,
        st.score + KillScore(e.points, m),
        st.kills + 1,
        if drop then st.powerUps + [NewPowerUp(e.x + EnemyWidth / 2.0, e.y, PowerUpTypeAt(draw.pick), draw.drift)]
        else st.powerUps,
        if drop then st.dropped + 1 else st.dropped,
        st.particles + Burst(ExplosionParticles, ExplosionLife))
  }

  /** The pass over the bullets from the last to the first. */
  function ResolveFromEnd(st: KillState, bs: seq<Bullet>, draws: nat -> DropDraw, m: real): KillState
    decreases |bs|
  {
    if bs == [] then st
    else ResolveBullet(ResolveFromEnd(st, bs[1..], draws, m), bs[0], draws, m)
  }

  /** The bullet pass of `updateEnemies`, starting from the game's current values. */
  function KillPass(enemies: seq<Enemy>, bullets: seq<Bullet>, score: int, powerUps: seq<PowerUpItem>,
                    dropped: int, particles: seq<int>, draws: nat -> DropDraw, m: real): KillState
  {
    ResolveFromEnd(KillState(enemies, [], score, 0, powerUps, dropped, particles), bullets, draws, m)
  }

  /** All enemies of a list are worth the same. */
  ghost predicate AllWorth(es: seq<Enemy>, points: int) {
    forall k :: 0 <= k < |es| ==> es[k].points == points
  }

  /** The invariant of the bullet pass, relating a state to the one it started from. */
  ghost predicate PassFacts(st: KillState, r: KillState, points: int, m: real, bulletsDone: nat) {
    var killed := r.kills - st.kills;
    killed >= 0 &&
    |r.survivors| + killed == |st.survivors| + bulletsDone &&
    |r.enemies| + killed == |st.enemies| &&
    r.score == st.score + killed * KillScore(points, m) &&
    r.particles == st.particles + Burst(killed * ExplosionParticles, ExplosionLife) &&
    r.dropped <= MaxDropsPerWave && |r.powerUps| <= MaxPowerUpsOnScreen &&
    r.dropped - st.dropped == |r.powerUps| - |st.powerUps| >= 0 &&
    |st.powerUps| <= |r.powerUps| && r.powerUps[..|st.powerUps|] == st.powerUps &&
    AllWorth(r.enemies, points) &&
    (forall k :: 0 <= k < |r.enemies| ==> r.enemies[k] in st.enemies)
  }

  /** One more bullet keeps the pass invariant. */
  lemma ResolveBulletStep(st: KillState, p: KillState, b: Bullet, draws: nat -> DropDraw, m: real, points: int, n: nat)
    requires PassFacts(st, p, points, m, n)
    ensures PassFacts(st, ResolveBullet(p, b, draws, m), points, m, n + 1)
  {
    var r := ResolveBullet(p, b, draws, m);
    var j := TargetIndex(p.enemies, b);
    if j >= 0 {
      var killed := p.kills - st.kills;
      assert p.enemies[j].points == points;
      assert r.enemies == p.enemies[..j] + p.enemies[j + 1..];
      assert forall k :: 0 <= k < |r.enemies| ==> r.enemies[k] in p.enemies;
      assert Burst(killed * ExplosionParticles, ExplosionLife) + Burst(ExplosionParticles, ExplosionLife)
          == Burst((killed + 1) * ExplosionParticles, ExplosionLife);
      assert r.powerUps[..|p.powerUps|] == p.powerUps;
      assert r.powerUps[..|st.powerUps|] == p.powerUps[..|st.powerUps|];
    }
  }

  /** What the bullet pass guarantees. Every bullet either survives or destroys exactly
      one enemy; each kill adds exactly KillScore and 8 particles; drops never push the
      per-wave count or the on-screen count past 4, and every new item is a drop; the
      enemies left are among those there were. */
  lemma {:induction false} ResolveFacts(st: KillState, bs: seq<Bullet>, draws: nat -> DropDraw, m: real, points: int)
    requires AllWorth(st.enemies, points)
    requires st.dropped <= MaxDropsPerWave && |st.powerUps| <= MaxPowerUpsOnScreen
    ensures PassFacts(st, ResolveFromEnd(st, bs, draws, m), points, m, |bs|)
    decreases |bs|
  {
    if bs == [] {
      assert st.powerUps[..|st.powerUps|] == st.powerUps;
      assert Burst(0, ExplosionLife) == [];
      assert st.particles + [] == st.particles;
    } else {
      ResolveFacts(st, bs[1..], draws, m, points);
      ResolveBulletStep(st, ResolveFromEnd(st, bs[1..], draws, m), bs[0], draws, m, points, |bs| - 1);
    }
  }

  /** A bullet that overlaps no enemy survives the pass. */
  lemma MissSurvives(st: KillState, b: Bullet, draws: nat -> DropDraw, m: real)
    requires forall k :: 0 <= k < |st.enemies| ==> !Overlaps(b.Box(), st.enemies[k].Box())
    ensures ResolveBullet(st, b, draws, m) == st.(survivors := [b] + st.survivors)
  {
  }

  // ---------------------------------------------------------------------------
  // Enemy bullets

  datatype Fate = OffScreen | Absorbed | HitsPlayer | Flying

  /** What happens to an enemy bullet after it has moved: off the bottom it is dropped;
      caught by an active shield it explodes harmlessly; touching the ship it explodes
      and costs a life. */
  function FateOf(b: EnemyBullet, p: Player, shieldOn: bool): Fate {
    if b.y > GameHeight then OffScreen
    else if shieldOn && ShieldCatches(p, b) then Absorbed
    else if Overlaps(b.Box(), p.Box()) then HitsPlayer
    else Flying
  }

  /** `updateEnemyBullets`: the bullets still flying afterwards, in order. */
  function EnemyBulletsAfter(s: seq<EnemyBullet>, p: Player, shieldOn: bool): seq<EnemyBullet> {
    if s == [] then []
    else
      var b := s[0].Advanced();
      (if FateOf(b, p, shieldOn) == Flying then [b] else []) + EnemyBulletsAfter(s[1..], p, shieldOn)
  }

  /** Every bullet kept by the pass is an old one moved one step and still flying, and
      every old bullet still flying after its step is kept. */
  lemma {:induction false} EnemyBulletsStillFlying(s: seq<EnemyBullet>, p: Player, shieldOn: bool)
    ensures var r := EnemyBulletsAfter(s, p, shieldOn);
            |r| <= |s| &&
            (forall k :: 0 <= k < |r| ==>
               FateOf(r[k], p, shieldOn) == Flying && exists i :: 0 <= i < |s| && r[k] == s[i].Advanced()) &&
            (forall i :: 0 <= i < |s| && FateOf(s[i].Advanced(), p, shieldOn) == Flying ==> s[i].Advanced() in r)
  {
    if s != [] {
      var t := s[1..];
      EnemyBulletsStillFlying(t, p, shieldOn);
      assert forall k :: 1 <= k < |s| ==> t[k - 1] == s[k];
      var b := s[0].Advanced();
      var h := if FateOf(b, p, shieldOn) == Flying then [b] else [];
      var rest := EnemyBulletsAfter(t, p, shieldOn);
      var r := h + rest;
      forall k | 0 <= k < |r|
        ensures exists i :: 0 <= i < |s| && r[k] == s[i].Advanced()
      {
        if k < |h| {
          assert r[k] == s[0].Advanced();
        } else {
          var i' :| 0 <= i' < |t| && rest[k - |h|] == t[i'].Advanced();
          assert r[k] == s[i' + 1].Advanced();
        }
      }
    }
  }

  /** How many bullets of the pass hit the ship. */
  function Hits(s: seq<EnemyBullet>, p: Player, shieldOn: bool): nat {
    if s == [] then 0
    else (if FateOf(s[0].Advanced(), p, shieldOn) == HitsPlayer then 1 else 0) + Hits(s[1..], p, shieldOn)
  }

  /** How many bullets of the pass explode (absorbed or hitting). */
  function Blasts(s: seq<EnemyBullet>, p: Player, shieldOn: bool): nat {
    if s == [] then 0
    else
      var f := FateOf(s[0].Advanced(), p, shieldOn);
      (if f == Absorbed || f == HitsPlayer then 1 else 0) + Blasts(s[1..], p, shieldOn)
  }

  /** Every bullet of the pass is either still flying, or explodes, or left the field;
      every hit is an explosion. */
  lemma {:induction false} EnemyBulletAccounting(s: seq<EnemyBullet>, p: Player, shieldOn: bool)
    ensures Hits(s, p, shieldOn) <= Blasts(s, p, shieldOn)
    ensures |EnemyBulletsAfter(s, p, shieldOn)| + Blasts(s, p, shieldOn) <= |s|
  {
    if s != [] {
      EnemyBulletAccounting(s[1..], p, shieldOn);
    }
  }

  /** An active shield never makes the ship lose more lives, and with no bullet outside
      the shield's circle it loses none. */
  lemma {:induction false} ShieldProtects(s: seq<EnemyBullet>, p: Player)
    ensures Hits(s, p, true) <= Hits(s, p, false)
    ensures (forall k :: 0 <= k < |s| ==> ShieldCatches(p, s[k].Advanced())) ==> Hits(s, p, true) == 0
  {
    if s != [] {
      ShieldProtects(s[1..], p);
      assert forall k :: 1 <= k < |s| ==> s[1..][k - 1] == s[k];
    }
  }

  // ---------------------------------------------------------------------------
  // Falling power-up items

  /** An item that has moved is lost below the bottom edge, collected if it touches the
      ship, and otherwise keeps falling. */
  function Collects(it: PowerUpItem, p: Player): bool {
    it.y <= GameHeight && Overlaps(it.Box(), p.Box())
  }

  /** `updatePowerUps`: the items still falling afterwards, in order. */
  function ItemsAfter(s: seq<PowerUpItem>, p: Player): seq<PowerUpItem> {
    if s == [] then []
    else
      var it := s[0].Advanced();
      (if it.y <= GameHeight && !Collects(it, p) then [it] else []) + ItemsAfter(s[1..], p)
  }

  /** Every item kept by the pass is an old one moved one step, on the field and clear of
      the ship, and every old item that is on the field and clear of the ship after its
      step is kept. */
  lemma {:induction false} ItemsStillFalling(s: seq<PowerUpItem>, p: Player)
    ensures var r := ItemsAfter(s, p);
            |r| <= |s| &&
            (forall k :: 0 <= k < |r| ==>
               r[k].y <= GameHeight && !Overlaps(r[k].Box(), p.Box()) &&
               exists i :: 0 <= i < |s| && r[k] == s[i].Advanced()) &&
            (forall i :: 0 <= i < |s| && s[i].Advanced().y <= GameHeight && !Overlaps(s[i].Advanced().Box(), p.Box()) ==>
               s[i].Advanced() in r)
  {
    if s != [] {
      var t := s[1..];
      ItemsStillFalling(t, p);
      assert forall k :: 1 <= k < |s| ==> t[k - 1] == s[k];
      var it := s[0].Advanced();
      var h := if it.y <= GameHeight && !Collects(it, p) then [it] else [];
      var rest := ItemsAfter(t, p);
      var r := h + rest;
      forall k | 0 <= k < |r|
        ensures exists i :: 0 <= i < |s| && r[k] == s[i].Advanced()
      {
        if k < |h| {
          assert r[k] == s[0].Advanced();
        } else {
          var i' :| 0 <= i' < |t| && rest[k - |h|] == t[i'].Advanced();
          assert r[k] == s[i' + 1].Advanced();
        }
      }
    }
  }

  /** The kinds of the collected items, in the order the pass (last item first) collects them. */
  function CollectedKinds(s: seq<PowerUpItem>, p: Player): seq<PowerUpType> {
    if s == [] then []
    else
      var it := s[0].Advanced();
      CollectedKinds(s[1..], p) + (if Collects(it, p) then [it.kind] else [])
  }

  /** Every item is kept, collected, or lost, and never two of these. */
  lemma {:induction false} ItemAccounting(s: seq<PowerUpItem>, p: Player)
    ensures |ItemsAfter(s, p)| + |CollectedKinds(s, p)| <= |s|
  {
    if s != [] {
      ItemAccounting(s[1..], p);
    }
  }

  /** The ledger after collecting the kinds in order, all at the same moment. */
  function PickupAll(l: Ledger, kinds: seq<PowerUpType>, now: int): Ledger
    decreases |kinds|
  {
    if kinds == [] then l else PickupAll(l, kinds[..|kinds| - 1], now).Pickup(kinds[|kinds| - 1], now)
  }

  function CountOf(kinds: seq<PowerUpType>, t: PowerUpType): nat
    decreases |kinds|
  {
    if kinds == [] then 0 else CountOf(kinds[..|kinds| - 1], t) + (if kinds[|kinds| - 1] == t then 1 else 0)
  }

  /** Collecting a batch of items activates exactly their kinds from now on, leaves the
      other effects alone, and adds one shield pickup per shield collected. */
  lemma {:induction false} PickupAllFacts(l: Ledger, kinds: seq<PowerUpType>, now: int)
    ensures var r := PickupAll(l, kinds, now);
            r.shieldPickupCount == l.shieldPickupCount + CountOf(kinds, Shield) &&
            (forall t :: r.Active(t) <==> l.Active(t) || t in kinds) &&
            (forall t :: t in kinds ==> r.startTimes[t] == now) &&
            (forall t :: l.Active(t) && t !in kinds ==> r.startTimes[t] == l.startTimes[t])
    decreases |kinds|
  {
    if kinds != [] {
      var init := kinds[..|kinds| - 1];
      PickupAllFacts(l, init, now);
      assert forall t :: t in kinds <==> t in init || t == kinds[|kinds| - 1];
    }
  }

  // ---------------------------------------------------------------------------
  // Particles

  /** `particles.filter(p => p.life > 0)` followed by every particle's `update()`: only the
      life counters are modelled. */
  function AgeParticles(ps: seq<int>): seq<int> {
    if ps == [] then []
    else (if ps[0] > 0 then [ps[0] - 1] else []) + AgeParticles(ps[1..])
  }

  /** Aging never adds a particle, and no particle left has a negative life. */
  lemma {:induction false} AgedLivesNonNegative(ps: seq<int>)
    ensures var r := AgeParticles(ps);
            |r| <= |ps| && forall k :: 0 <= k < |r| ==> r[k] >= 0
  {
    if ps != [] {
      AgedLivesNonNegative(ps[1..]);
    }
  }

  /** A burst lives one tick less after each tick, until it is gone. */
  lemma {:induction false} BurstAges(n: nat, life: int)
    requires life > 0
    ensures AgeParticles(Burst(n, life)) == Burst(n, life - 1)
  {
    if n > 0 {
      assert Burst(n, life)[1..] == Burst(n - 1, life);
      BurstAges(n - 1, life);
    }
  }

  lemma {:induction false} AgeAppend(a: seq<int>, b: seq<int>)
    ensures AgeParticles(a + b) == AgeParticles(a) + AgeParticles(b)
    decreases |a|
  {
    if a == [] {
      assert a + b == b;
    } else {
      assert (a + b)[1..] == a[1..] + b;
      AgeAppend(a[1..], b);
    }
  }

  // ---------------------------------------------------------------------------
  // Enemy fire

  /** `Math.floor(Math.random() * enemies.length)`. */
  function FireIndex(pick: Random01, n: nat): (k: nat)
    requires n > 0
    ensures k < n
  {
    var r := pick * n as real;
    assert r < n as real;
    r.Floor
  }

  /** Enemies fire on every tick whose count is a multiple of the spawn rate. */
  predicate FiresAt(gameTime: int, d: Difficulty)
    requires d.Valid()
  {
    gameTime % d.enemySpawnRate == 0
  }

  lemma ModOfMultiplePlus(q: int, n: int, k: int)
    requires n > 0 && 0 <= k < n
    ensures (q * n + k) % n == k
  {
    var a := q * n + k;
    var d, r := a / n, a % n;
    assert a == d * n + r;
    Distribute(q, d, n);
    SmallMultipleIsZero(q - d, n, r - k);
  }

  lemma Distribute(q: int, d: int, n: int)
    ensures (q - d) * n == q * n - d * n
  {
  }

  /** The only multiple of n strictly between -n and n is 0. */
  lemma SmallMultipleIsZero(c: int, n: int, e: int)
    requires n > 0 && c * n == e && -n < e < n
    ensures e == 0
  {
    if c >= 1 {
      assert c * n == n + (c - 1) * n;
    } else if c <= -1 {
      assert c * n == -n + (c + 1) * n;
    }
  }

  /** Between two shots there are exactly `enemySpawnRate` ticks. */
  lemma FireCadence(t: int, k: int, d: Difficulty)
    requires d.Valid() && FiresAt(t, d) && 0 <= k <= d.enemySpawnRate
    ensures FiresAt(t + k, d) <==> k == 0 || k == d.enemySpawnRate
  {
    var n := d.enemySpawnRate;
    var q := t / n;
    assert t == q * n;
    if k < n {
      ModOfMultiplePlus(q, n, k);
    } else {
      assert t + k == (q + 1) * n + 0;
      ModOfMultiplePlus(q + 1, n, 0);
    }
  }

  /** The bullet an enemy fires: from the middle of its bottom edge, at the difficulty's speed. */
  function EnemyShot(e: Enemy, d: Difficulty): (b: EnemyBullet)
    ensures b.x == e.x + EnemyWidth / 2.0 && b.y == e.y + EnemyHeight
    ensures d.Valid() ==> b.speed > 0.0
  {
    EnemyBullet(e.x + EnemyWidth / 2.0, e.y + EnemyHeight, EnemyBulletSpeed * d.enemyBulletSpeedMultiplier)
  }

  // ---------------------------------------------------------------------------
  // One step of each backwards pass, and the list surgery the passes perform

  /** Replacing the element after `pre`. */
  lemma Replace<T>(pre: seq<T>, x: T, y: T, post: seq<T>)
    ensures (pre + [x] + post)[|pre| := y] == pre + [y] + post
  {
    var s, t := (pre + [x] + post)[|pre| := y], pre + [y] + post;
    assert |s| == |t|;
    assert forall k :: 0 <= k < |s| ==> s[k] == t[k];
  }

  /** Removing the element after `pre`, as `splice(i, 1)` does. */
  lemma Splice<T>(pre: seq<T>, x: T, post: seq<T>)
    ensures var s := pre + [x] + post; s[..|pre|] + s[|pre| + 1..] == pre + post
  {
    var s := pre + [x] + post;
    assert s[..|pre|] == pre;
    assert s[|pre| + 1..] == post;
  }

  /** The prefix up to and including position i. */
  lemma PrefixStep<T>(s: seq<T>, i: nat)
    requires i < |s|
    ensures s[..i + 1] == s[..i] + [s[i]]
    ensures s[i..][0] == s[i] && s[i..][1..] == s[i + 1..]
  {
  }

  lemma BulletStep(s: seq<Bullet>, i: nat)
    requires i < |s|
    ensures var b := s[i].Advanced();
            AdvanceBullets(s[i..]) == (if b.y < 0.0 then [] else [b]) + AdvanceBullets(s[i + 1..])
  {
    PrefixStep(s, i);
  }

  lemma ItemStep(s: seq<PowerUpItem>, i: nat, p: Player)
    requires i < |s|
    ensures var it := s[i].Advanced();
            ItemsAfter(s[i..], p) == (if it.y <= GameHeight && !Collects(it, p) then [it] else []) + ItemsAfter(s[i + 1..], p) &&
            CollectedKinds(s[i..], p) == CollectedKinds(s[i + 1..], p) + (if Collects(it, p) then [it.kind] else [])
  {
    PrefixStep(s, i);
  }

  lemma EnemyBulletStep(s: seq<EnemyBullet>, i: nat, p: Player, shieldOn: bool)
    requires i < |s|
    ensures var b := s[i].Advanced();
            var f := FateOf(b, p, shieldOn);
            EnemyBulletsAfter(s[i..], p, shieldOn) == (if f == Flying then [b] else []) + EnemyBulletsAfter(s[i + 1..], p, shieldOn) &&
            Hits(s[i..], p, shieldOn) == (if f == HitsPlayer then 1 else 0) + Hits(s[i + 1..], p, shieldOn) &&
            Blasts(s[i..], p, shieldOn) == (if f == Absorbed || f == HitsPlayer then 1 else 0) + Blasts(s[i + 1..], p, shieldOn)
  {
    PrefixStep(s, i);
  }

  lemma ResolveStep(st: KillState, s: seq<Bullet>, i: nat, draws: nat -> DropDraw, m: real)
    requires i < |s|
    ensures ResolveFromEnd(st, s[i..], draws, m) == ResolveBullet(ResolveFromEnd(st, s[i + 1..], draws, m), s[i], draws, m)
  {
    PrefixStep(s, i);
  }

  lemma PickupStep(l: Ledger, kinds: seq<PowerUpType>, t: PowerUpType, now: int)
    ensures PickupAll(l, kinds + [t], now) == PickupAll(l, kinds, now).Pickup(t, now)
  {
    assert (kinds + [t])[..|kinds|] == kinds;
  }
}
