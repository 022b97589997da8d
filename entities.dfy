/** The moving bodies of the game as values, with their per-tick motion rules
    and the player's shot patterns. */
module Entities {
  import opened Config
  import opened Geometry

  /** The player's ship; its size is fixed. */
  datatype Player = Player(x: real, y: real)
  {
    function Box(): Rect { Rect(x, y, PlayerWidth, PlayerHeight) }

    /** Left edge of a bullet fired from the middle of the ship. */
    function CentreGun(): real { x + PlayerWidth / 2.0 - BulletWidth / 2.0 }

    /** Held arrow keys move the ship 5 px as long as it has not reached the edge
        it is moving towards; left is applied before right. */
    function Moved(left: bool, right: bool): (p: Player)
      ensures p.y == y
      ensures left && !right ==> p.x == if x > 0.0 then x - PlayerSpeed else x
      ensures right && !left ==> p.x == if x + PlayerWidth < GameWidth then x + PlayerSpeed else x
      ensures left == right && (!left || (x > 0.0 && x + PlayerWidth < GameWidth + PlayerSpeed)) ==> p.x == x
      ensures -PlayerSpeed < x && x + PlayerWidth < GameWidth + PlayerSpeed ==>
                -PlayerSpeed < p.x && p.x + PlayerWidth < GameWidth + PlayerSpeed
    {
      var x1 := if left && x > 0.0 then x - PlayerSpeed else x;
      var x2 := if right && x1 + PlayerWidth < GameWidth then x1 + PlayerSpeed else x1;
      Player(x2, y)
    }

    /** The bullets one call of `shoot` creates, in the order they are pushed. A
        Multi-Shot power-up overrides the tier; tier 3 and above spreads two bullets
        by a wave-dependent fraction of the ship; tier 2 fires two bullets 8 px either
        side of the centre; anything else fires one centred bullet. */
    function Volley(wave: int, multiShot: bool, bulletLevel: int): (r: seq<Bullet>)
      ensures 1 <= |r| <= 3
      ensures |r| == 3 <==> multiShot
      ensures |r| == 2 <==> !multiShot && bulletLevel >= 2
      ensures forall k :: 0 <= k < |r| ==> r[k].y == y - BulletHeight
      ensures |r| == 1 ==> r[0] == Bullet(CentreGun(), y - BulletHeight, 0.0)
      ensures multiShot ==> r[0].velocityX == -2.0 && r[1] == Bullet(CentreGun(), y - BulletHeight, 0.0)
      ensures multiShot ==> r[0].x == x + 0.25 * PlayerWidth - BulletWidth / 2.0
      ensures !multiShot && bulletLevel >= 3 ==> r[0].velocityX == -2.0
      ensures !multiShot && bulletLevel >= 3 ==> r[0].x == x + WaveSpread(wave) * PlayerWidth - BulletWidth / 2.0
      ensures !multiShot && bulletLevel == 2 ==> r[0].x == CentreGun() - 8.0 && r[0].velocityX == -1.0
    {
      var top := y - BulletHeight;
      if multiShot then
        [Bullet(x + 0.25 * PlayerWidth - BulletWidth / 2.0, top, -2.0),
         Bullet(CentreGun(), top, 0.0),
         Bullet(x + 0.75 * PlayerWidth - BulletWidth / 2.0, top, 2.0)]
      else if bulletLevel >= 3 then
        var spread := WaveSpread(wave);
        [Bullet(x + spread * PlayerWidth - BulletWidth / 2.0, top, -2.0),
         Bullet(x + (1.0 - spread) * PlayerWidth - BulletWidth / 2.0, top, 2.0)]
      else if bulletLevel == 2 then
        [Bullet(CentreGun() - 8.0, top, -1.0), Bullet(CentreGun() + 8.0, top, 1.0)]
      else
        [Bullet(CentreGun(), top, 0.0)]
    }

    /** `shoot(bullets, ...)`: pushes the volley onto the list and returns how many
        bullets it created. */
    function Shoot(bullets: seq<Bullet>, wave: int, multiShot: bool, bulletLevel: int): (r: ShotResult)
      ensures |r.bullets| == |bullets| + r.created
      ensures r.bullets[..|bullets|] == bullets
      ensures r.bullets[|bullets|..] == Volley(wave, multiShot, bulletLevel)
      ensures 1 <= r.created <= 3
    {
      var v := Volley(wave, multiShot, bulletLevel);
      assert (bullets + v)[|bullets|..] == v;
      ShotResult(bullets + v, |v|)
    }
  }

  datatype ShotResult = ShotResult(bullets: seq<Bullet>, created: nat)

  /** `Math.max(0.1, 0.25 - (wave - 2) * 0.05)`: the tier-3 gun offset as a fraction of the ship width. */
  function WaveSpread(wave: int): (s: real)
    ensures s >= 0.1
    ensures wave >= 1 ==> s <= 0.3
    ensures wave >= 5 ==> s == 0.1
  {
    var s := 0.25 - (wave - 2) as real * 0.05;
    if s < 0.1 then 0.1 else s
  }

  /** A volley is mirror-symmetric about the centre gun: the k-th bullet from the left
      and the k-th from the right sit at equal distances either side of it and drift
      at opposite speeds. */
  lemma {:induction false} VolleySymmetric(p: Player, wave: int, multiShot: bool, bulletLevel: int, k: nat)
    requires k < |p.Volley(wave, multiShot, bulletLevel)|
    ensures var r := p.Volley(wave, multiShot, bulletLevel);
            r[k].x + r[|r| - 1 - k].x == 2.0 * p.CentreGun() &&
            r[k].velocityX + r[|r| - 1 - k].velocityX == 0.0
  {
  }

  /** From wave 1 on, every bullet of a volley starts within the ship's width. */
  lemma VolleyWithinShip(p: Player, wave: int, multiShot: bool, bulletLevel: int, k: nat)
    requires wave >= 1
    requires k < |p.Volley(wave, multiShot, bulletLevel)|
    ensures var b := p.Volley(wave, multiShot, bulletLevel)[k];
            p.x <= b.x && b.x + BulletWidth <= p.x + PlayerWidth
  {
    var s := WaveSpread(wave);
    assert 0.1 * PlayerWidth <= s * PlayerWidth <= 0.3 * PlayerWidth;
  }

  /** A player bullet: fixed size, rises 7 px per tick and drifts sideways. */
  datatype Bullet = Bullet(x: real, y: real, velocityX: real)
  {
    function Box(): Rect { Rect(x, y, BulletWidth, BulletHeight) }

    function Advanced(): (b: Bullet)
      ensures b.y == y - BulletSpeed && b.x - x == velocityX && b.velocityX == velocityX
    {
      Bullet(x + velocityX, y - BulletSpeed, velocityX)
    }
  }

  /** An invader. `speed` and `points` are fixed when it is spawned; `direction` is 1 or -1. */
  datatype Enemy = Enemy(x: real, y: real, speed: real, points: int, direction: int)
  {
    function Box(): Rect { Rect(x, y, EnemyWidth, EnemyHeight) }

    /** Each tick the enemy moves `speed * direction`; if that puts it at or past either
        side wall it turns round and drops 20 px. Each enemy checks only its own bounds. */
    function Moved(): (e: Enemy)
      ensures e.speed == speed && e.points == points
      ensures e.x == x + speed * direction as real
      ensures var bounced := e.x <= 0.0 || e.x + EnemyWidth >= GameWidth;
              (bounced ==> e.direction == -direction && e.y == y + 20.0) &&
              (!bounced ==> e.direction == direction && e.y == y)
    {
      var nx := x + speed * direction as real;
      if nx <= 0.0 || nx + EnemyWidth >= GameWidth then
        Enemy(nx, y + 20.0, speed, points, -direction)
      else
        Enemy(nx, y, speed, points, direction)
    }
  }

  /** Points of an enemy spawned in the given wave. */
  function EnemyPoints(wave: int): int { 10 + wave * 5 }

  /** Speed of an enemy spawned in the given wave on the given difficulty. */
  function EnemySpeed(wave: int, d: Difficulty): real { (1.0 + wave as real * 0.5) * d.enemySpeedMultiplier }

  /** `new Enemy(x, y, wave, difficulty)`. */
  function NewEnemy(x: real, y: real, wave: int, d: Difficulty): Enemy {
    Enemy(x, y, EnemySpeed(wave, d), EnemyPoints(wave), 1)
  }

  /** Motion keeps the direction a unit and never moves an enemy up. */
  lemma MovedKeepsHeading(e: Enemy)
    requires e.direction == 1 || e.direction == -1
    ensures e.Moved().direction == 1 || e.Moved().direction == -1
    ensures e.Moved().y >= e.y
  {
  }

  /** An enemy at the left wall moving left turns right and drops one row on its next tick. */
  lemma LeftWallBounce(e: Enemy)
    requires e.x == 0.0 && e.direction == -1 && e.speed >= 0.0
    ensures e.Moved().direction == 1 && e.Moved().y == e.y + 20.0
  {
  }

  /** A bullet fired by an enemy; it falls `speed` px per tick. */
  datatype EnemyBullet = EnemyBullet(x: real, y: real, speed: real)
  {
    function Box(): Rect { Rect(x, y, BulletWidth, BulletHeight) }

    function Advanced(): (b: EnemyBullet)
      ensures b.x == x && b.y - y == speed && b.speed == speed
    {
      EnemyBullet(x, y + speed, speed)
    }
  }

  /** The shield is a circle of diameter PLAYER_WIDTH + 20 around the ship's centre; it
      catches an enemy bullet whose top-left corner lies strictly within its radius
      (compared squared, so no square root is taken). */
  predicate ShieldCatches(p: Player, b: EnemyBullet) {
    var dx := b.x - (p.x + PlayerWidth / 2.0);
    var dy := b.y - (p.y + PlayerHeight / 2.0);
    var radius := (PlayerWidth + 20.0) / 2.0;
    dx * dx + dy * dy < radius * radius
  }

  /** A falling power-up item; `vx` is its sideways drift. */
  datatype PowerUpItem = PowerUpItem(x: real, y: real, kind: PowerUpType, vx: real, vy: real)
  {
    function Box(): Rect { Rect(x, y, PowerUpSize, PowerUpSize) }

    /** The item falls and drifts; when it is outside either wall its drift is reversed
        (the position itself is not clamped). */
    function Advanced(): (p: PowerUpItem)
      ensures p.y == y + vy && p.x == x + vx && p.kind == kind && p.vy == vy
      ensures p.x < 0.0 || p.x + PowerUpSize > GameWidth ==> p.vx == -vx
      ensures 0.0 <= p.x && p.x + PowerUpSize <= GameWidth ==> p.vx == vx
    {
      var nx := x + vx;
      var nvx := if nx < 0.0 || nx + PowerUpSize > GameWidth then -vx else vx;
      PowerUpItem(nx, y + vy, kind, nvx, vy)
    }
  }

  /** `new PowerUp(x, y, type)`, with `drift` the `Math.random()` value for its drift. */
  function NewPowerUp(x: real, y: real, kind: PowerUpType, drift: Random01): (p: PowerUpItem)
    ensures -1.0 <= p.vx < 1.0 && p.vy == PowerUpFallSpeed
  {
    PowerUpItem(x, y, kind, (drift - 0.5) * 2.0, PowerUpFallSpeed)
  }
}
