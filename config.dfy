/** Playfield constants, difficulty presets and the power-up catalogue of the game. */
module Config {

  const GameWidth: real := 800.0
  const GameHeight: real := 600.0
  const PlayerWidth: real := 40.0
  const PlayerHeight: real := 30.0
  const PlayerSpeed: real := 5.0
  const EnemyWidth: real := 35.0
  const EnemyHeight: real := 25.0
  const BulletWidth: real := 5.0
  const BulletHeight: real := 15.0
  const BulletSpeed: real := 7.0
  const EnemyBulletSpeed: real := 4.0

  /** Falling power-up items are 30 x 30 and fall 1.5 px per tick. */
  const PowerUpSize: real := 30.0
  const PowerUpFallSpeed: real := 1.5

  /** The value of one `Math.random()` call: a real in [0, 1). */
  type Random01 = r: real | 0.0 <= r < 1.0 witness 0.0

  /** A difficulty preset; `enemySpawnRate` is the number of ticks between enemy shots. */
  datatype Difficulty = Difficulty(
    name: string,
    enemySpeedMultiplier: real,
    enemySpawnRate: int,
    enemyBulletSpeedMultiplier: real,
    scoreMultiplier: real,
    bonusLifeInterval: int)
  {
    /** What every preset satisfies and what the simulation relies on. */
    predicate Valid() {
      enemySpeedMultiplier > 0.0 && enemySpawnRate > 0 &&
      enemyBulletSpeedMultiplier > 0.0 && scoreMultiplier > 0.0
    }
  }

  const Easy: Difficulty := Difficulty("Easy", 0.6, 45, 0.7, 0.5, 3000)
  const Normal: Difficulty := Difficulty("Normal", 1.0, 30, 1.0, 1.0, 2000)
  const Hard: Difficulty := Difficulty("Hard", 1.5, 20, 1.3, 1.5, 1500)
  const Insane: Difficulty := Difficulty("Insane", 2.0, 15, 1.8, 2.0, 1000)

  /** The presets a game can be started with. */
  predicate IsPreset(d: Difficulty) {
    d == Easy || d == Normal || d == Hard || d == Insane
  }

  lemma PresetsAreValid(d: Difficulty)
    requires IsPreset(d)
    ensures d.Valid()
  {
  }

  /** The three power-up kinds, in the declaration order of the catalogue. */
  datatype PowerUpType = Shield | RapidFire | MultiShot

  /** Base effect duration in milliseconds. */
  function BaseDuration(t: PowerUpType): (ms: int)
    ensures ms >= 6000
  {
    match t
    case Shield => 8000
    case RapidFire => 6000
    case MultiShot => 7000
  }

  /** Extra shield time, in milliseconds, granted by every shield pickup after the first. */
  const ShieldBonusPerPickup: int := 2000

  /** `Object.keys(POWERUP_TYPES)[Math.floor(pick * 3)]`: the kind a drop gets from one random draw. */
  function PowerUpTypeAt(pick: Random01): (t: PowerUpType)
    ensures t == Shield <==> pick < 1.0 / 3.0
    ensures t == MultiShot <==> pick >= 2.0 / 3.0
  {
    var k := (pick * 3.0).Floor;
    if k <= 0 then Shield else if k == 1 then RapidFire else MultiShot
  }

  /** JavaScript's `Math.ceil`. */
  function Ceil(x: real): (r: int)
    ensures x <= r as real < x + 1.0
  {
    -((-x).Floor)
  }

  /** JavaScript's `Math.round`: halves go up. */
  function Round(x: real): (r: int)
    ensures r as real - 0.5 <= x < r as real + 0.5
  {
    (x + 0.5).Floor
  }
}
