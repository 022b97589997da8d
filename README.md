# Space Invaders simulation core, in Dafny

This project models the simulation inside `game.js`, a browser Space Invaders clone, with the
browser layers taken away. What remains:

- **The collision test.** `checkCollision` is a strict axis-aligned rectangle overlap.
- **The power-up ledger.** `PowerUpManager` keeps the active effects and their start times, plus a
  shield pickup counter that is never reset. Shield time grows by 2000 ms for every pickup after the
  first.
- **The shot pattern.** `Player.shoot` chooses a volley of one, two or three bullets.
- **Per-entity motion.** These are the `update` rules of bullets, invaders, enemy bullets and
  falling power-up items.
- **The per-tick game step.** `SpaceInvadersGame.update` runs these steps in order:
  1. time;
  2. ship movement;
  3. power-ups;
  4. bullets;
  5. invaders, their kills and drops;
  6. enemy bullets and shield;
  7. particle lives;
  8. enemy fire;
  9. wave advance with bullet-tier unlocks;
  10. game over.
- **The high-score table.** A sorted list truncated to the top ten.
- **The statistics aggregate.**

Every clock reading, random draw and key state is a parameter of the step that uses it. The
`TickInput` datatype bundles them:

- the held arrow keys;
- `Date.now()`;
- the kill-drop draws, indexed by the ordinal of the kill within the tick;
- the enemy-fire draw;
- the timestamp handed to the statistics.

Positions and multipliers are exact `real`s, so `Math.ceil` and `Math.round` are stated exactly
(`Config.Ceil`, `Config.Round`).

The modules follow the program:

- `Config`: the constants, the difficulty presets and the power-up catalogue.
- `Geometry`: `checkCollision`.
- `Entities`: the player, the bullets, the invaders and the items, as values with their motion rules.
- `PowerUps`: the ledger as a value `Ledger` and as the mutable class `PowerUpManager`.
- `HighScores` and `Statistics`: the two stores, as classes over in-memory fields.
- `Simulation`: every per-tick rule as a function on values, with the lemmas about it.
- `Game`: the class `SpaceInvadersGame`, whose fields the tick methods update in place.
  - Its loops walk the lists from the end and `splice` them as the source does.
  - Each loop is proved to produce exactly what the matching `Simulation` function computes.

Observations about the code:

- **Lives can go negative.** When an invader reaches the bottom line, `lives` is set to 0. A hit by
  an enemy bullet later in the same tick still subtracts one.
- **Two game states are never entered.** `WAVE_COMPLETE` and `PAUSED` exist in the code but no
  statement switches to them. Pausing is the separate `isPaused` flag, and it only gates `update`.
- **The recorded play time is ticks divided by 1000.** `endGame` records `round(gameTime / 1000)`,
  but `gameTime` counts ticks, not milliseconds. The model keeps this.
- **`addScore` can report false for a score that stayed in the table.** It returns
  `isHighScore(score)` computed after the insertion, which is false when the new entry lands in
  tenth place (`HighScores.AddScoreReport`).
- **An empty rectangle can still collide.** Under the strict test, a zero-size rectangle strictly
  inside another one overlaps it (`Geometry.PointInsideBoxOverlaps`).

## Model

| member | source | states |
|---|---|---|
| Geometry.OverlapsSymmetric | game.js:918-923 | the collision test does not depend on argument order |
| Geometry.OverlapHasCommonPoint | game.js:918-923 | two rectangles of positive size that collide share an interior point |
| Geometry.CommonPointOverlaps | game.js:918-923 | a shared interior point forces a collision (the converse of the row above) |
| Geometry.OverlapNeedsExtent | game.js:918-923 | a collision needs positive combined width and height, so two zero-size rectangles never collide |
| Geometry.PointInsideBoxOverlaps | game.js:918-923 | a zero-size rectangle strictly inside a box does collide with it |
| Geometry.TouchingEdgesDoNotOverlap | game.js:918-923 | rectangles that only touch along an edge do not collide |
| Geometry.Overlaps | game.js:918-923 | `checkCollision`: the two boxes overlap strictly on both axes |
| Config.PresetsAreValid | game.js:14-47 | each of the four difficulty presets has positive multipliers and a spawn rate of at least one tick |
| Config.BaseDuration | game.js:293-315 | every power-up's base duration is at least 6000 ms |
| Config.PowerUpTypeAt | game.js:856-857 | the drop kind chosen from one random draw is Shield below 1/3 and Multi-shot from 2/3 up |
| Config.Ceil | game.js:846 | `Math.ceil`: the least integer not below its argument |
| Config.Round | game.js:539 | `Math.round`: the integer within half a unit, with halves going up |
| Entities.Player.Moved | game.js:738-743 | one held key moves the ship 5 px unless it is at that wall (left needs x > 0, right needs x + width < 800), the keys cancel away from the walls, y is kept, and the ship never gets 5 px past a wall |
| Entities.Player.Volley | game.js:1189-1227 | Multi-shot gives 3 bullets at 0.25, 0.5 and 0.75 of the ship (drifts -2, 0, +2); otherwise tier 3 or more gives 2 at `WaveSpread` and 1 − `WaveSpread` of the ship, tier 2 gives 2 at ±8 px from the centre with drifts ∓1, and anything else 1 centred bullet; all start one bullet height above the ship |
| Entities.Player.Shoot | game.js:1189-1227 | the volley is appended after the existing bullets, and the count returned is exactly the number appended |
| Entities.WaveSpread | game.js:1205 | the tier-3 gun offset lies between 0.1 and 0.3 ship widths and bottoms out at 0.1 from wave 5 |
| Entities.VolleySymmetric | game.js:1189-1227 | every volley is mirror-symmetric about the centre gun, in both position and drift |
| Entities.VolleyWithinShip | game.js:1189-1227 | from wave 1 on, every bullet of a volley starts within the ship's width |
| Entities.Bullet.Advanced | game.js:1282-1285 | a bullet rises 7 px and moves sideways by its drift |
| Entities.Enemy.Moved | game.js:1309-1317 | an invader moves speed × direction; at or past a wall it reverses and drops 20 px, otherwise y and direction are kept |
| Entities.MovedKeepsHeading | game.js:1309-1317 | the direction stays ±1, and an invader never moves up |
| Entities.LeftWallBounce | game.js:1309-1317 | an invader at the left wall moving left turns right and drops one row |
| Entities.EnemyPoints | game.js:1305 | an invader spawned in wave w is worth 10 + 5w |
| Entities.EnemySpeed | game.js:1303-1304 | an invader spawned in wave w moves (1 + 0.5w) × the difficulty's speed multiplier per tick |
| Entities.NewEnemy | game.js:1297-1307 | a new invader at (x, y) heading right, with the wave's speed and points |
| Entities.EnemyBullet.Advanced | game.js:1343-1345 | an enemy bullet falls by its speed and keeps its x |
| Entities.ShieldCatches | game.js:881-889 | the shield catches a bullet whose top-left corner lies strictly closer than (PLAYER_WIDTH + 20) / 2 to the ship's centre, compared squared |
| Entities.PowerUpItem.Advanced | game.js:331-340 | an item falls and drifts, and its drift reverses exactly when it is outside a wall |
| Entities.NewPowerUp | game.js:319-329 | a new item drifts in [-1, 1) and falls 1.5 px per tick |
| PowerUps.Ledger.Pickup | game.js:382-390 | pickup (re)starts exactly this kind at `now`, keeps the other entries, and counts one more pickup only for a shield |
| PowerUps.Ledger.Duration | game.js:396-401 | a shield lasts 8000 + (pickups − 1) × 2000 ms and any other effect its base duration |
| PowerUps.Ledger.Purge | game.js:392-410 | an entry is deleted exactly when `now − start > duration`, surviving entries are unchanged, and the pickup count is kept |
| PowerUps.Ledger.Cleared | game.js:430-433 | clearing removes every effect but keeps the shield pickup count |
| PowerUps.Ledger.Remaining | game.js:416-428 | 0 when inactive, never negative, positive exactly while time is left, at most the duration, and then duration − elapsed |
| PowerUps.PickupCountIsCumulative | game.js:379-390 | after any history of pickups, ticks and clears, the pickup count is exactly the number of shield pickups |
| PowerUps.NthShieldDuration | game.js:396-401 | the N-th shield of a game lasts 8000 + (N − 1) × 2000 ms from its pickup |
| PowerUps.BackToBackShields | game.js:382-410 | a second shield taken before the first runs out lasts 10000 ms |
| PowerUps.PurgedLedgerHasTimeLeft | game.js:392-428 | after a tick, every listed effect's remaining time plus elapsed time is its duration |
| PowerUps.PowerUpManager.constructor | game.js:375-380 | a new manager has no active effects and a pickup count of 0 |
| PowerUps.PowerUpManager.AddPowerUp | game.js:382-390 | the manager's dictionaries and counter become `Ledger.Pickup` of the old ones |
| PowerUps.PowerUpManager.Update | game.js:392-410 | the loop over active types leaves exactly `Ledger.Purge` of the old state |
| PowerUps.PowerUpManager.GetRemainingTime | game.js:412-428 | the manager's answer is `Ledger.Remaining`, and `hasPowerUp` is exactly ledger activity |
| PowerUps.PowerUpManager.HasPowerUp | game.js:412-414 | an effect is on exactly when it is in the active set |
| PowerUps.PowerUpManager.Clear | game.js:430-433 | the manager becomes `Ledger.Cleared` of its old state |
| HighScores.FirstBelow | game.js:453-459 | the insertion point for a score: every earlier entry scores at least as much and the entry there scores less |
| HighScores.Top | game.js:459 | keeps the first min(n, 10) entries |
| HighScores.Insert | game.js:456-458 | the entry goes in front of the first entry that scores less, making the table one longer |
| HighScores.SortByScore | game.js:458 | the table sorted best score first by repeated `Insert`, keeping its length |
| HighScores.Admit | game.js:456-459 | `addScore`'s new table: push the entry, sort, keep the first 10 |
| HighScores.IsHighScoreIn | game.js:465-468 | a score is a high score when the table has fewer than 10 entries or it beats the last entry |
| HighScores.InsertSorted | game.js:457-458 | inserting into a sorted table keeps it sorted |
| HighScores.InsertPermutes | game.js:456-458 | inserting adds exactly the new entry |
| HighScores.InsertStable | game.js:456-458 | equal scores keep their order, and the new entry goes after them |
| HighScores.SortIsSorted | game.js:458 | the sort orders the table best score first |
| HighScores.SortPermutes | game.js:458 | the sort neither loses nor invents an entry |
| HighScores.SortIsStable | game.js:458 | the sort is stable: for every score, the entries with that score keep their order |
| HighScores.SortOfSorted | game.js:458 | sorting a sorted table changes nothing |
| HighScores.AdmitPlacement | game.js:453-463 | the new table is the old one with the entry put after every entry with at least its score, sorted, and cut to min(n + 1, 10) |
| HighScores.AdmitKeepsEntryIffHighScore | game.js:453-468 | the new entry survives the cut exactly when `isHighScore` held before it was added |
| HighScores.AddScoreReport | game.js:453-468 | what `addScore` returns is true exactly when the entry lands in the first nine places |
| HighScores.HighScoreManager.AddScore | game.js:453-463 | the table becomes the admitted table and stays sorted with at most 10 entries; the result is `isHighScore` on the new table |
| HighScores.HighScoreManager.GetHighScoreRank | game.js:474-479 | the rank is in 1..n+1: every entry before it is at least the score, and the entry at it is lower |
| HighScores.FirstBelowIsFirst | game.js:474-479 | the rank's index is the unique first index of an entry below the score |
| Statistics.BestWaveIsMaximum | game.js:516 | the best wave is the maximum wave of all games, or 0 before any game |
| Statistics.Record | game.js:514-521 | one game adds one to the count, raises the best wave to at least its wave, and adds each of its counters to the totals |
| Statistics.Summarize | game.js:514-521 | the aggregates of a history are `Record` applied game by game from zero |
| Statistics.SummarizeAppend | game.js:514-531 | recording one more game updates the aggregates of the history by that game |
| Statistics.SummarizeIsTotals | game.js:514-531 | the aggregates are the game count, the best wave and the totals of every counter |
| Statistics.MeanWithin | game.js:537-550 | if every game's value lies in [lo, hi], the rounded mean does too |
| Statistics.RoundedMean | game.js:537-550 | 0 with no games, otherwise within half a unit of the mean |
| Statistics.StatisticsManager.RecordGameEnd | game.js:514-531 | one more game, best wave = max(old, wave), each total increased, the last game stored with its timestamp, and the aggregates still equal to the history's |
| Statistics.StatisticsManager.ResetStats | game.js:552-563 | everything is zero with no last game |
| Statistics.StatisticsManager.AverageScore | game.js:537-540 | 0 before any game, otherwise the mean score rounded half up |
| Statistics.StatisticsManager.Accuracy | game.js:542-545 | 0 before any shot, otherwise kills per shot as a rounded percentage |
| Statistics.StatisticsManager.AveragePlaytime | game.js:547-550 | 0 before any game, otherwise the mean play time rounded half up |
| Simulation.KillScore | game.js:845-846 | a kill scores ceil(points × score multiplier) |
| Simulation.FirstKillOnNormal | game.js:846 | on Normal the first kill of wave 1 is worth 15 |
| Simulation.FirstKillOnEasy | game.js:846 | on Easy, 7.5 rounds up to 8 |
| Simulation.KillScoreGrows | game.js:846 | a kill is worth at least one point, and a later wave is never worth less |
| Simulation.KillsAddPoints | game.js:846 | n kills add at least n points |
| Simulation.NextBulletLevel | game.js:771-780 | the unlock chain never lowers the tier and changes it exactly when a tier unlocks |
| Simulation.TierAdvances | game.js:771-780 | clearing a wave moves the tier to the one for the new wave, and unlocks happen exactly on reaching waves 2 and 5 |
| Simulation.TierMonotone | game.js:771-780 | the tier never goes down as waves go up |
| Simulation.TierFor | game.js:771-777 | the tier a game at wave w has: 1, then 2 from wave 2, then 3 from wave 5 |
| Simulation.SpawnGrid | game.js:715-730 | a wave has 3 × 6 = 18 invaders |
| Simulation.SpawnGridLayout | game.js:715-730 | invader k sits at (50 + 90·col, 30 + 90·row) with direction 1 and the wave's speed and points; no two overlap, and all lie between the walls |
| Simulation.AdvanceBullets | game.js:812-821 | every bullet takes one step, and those past the top edge are dropped, order kept |
| Simulation.AdvanceBulletsFacts | game.js:812-821 | after the pass no bullet is above the top edge and none was added; every bullet kept is the moved form of an old one, and every old bullet whose moved form is still on screen is kept |
| Simulation.MovedAll | game.js:824 | every invader takes one motion step and no other change is made |
| Simulation.TargetIndex | game.js:837-840 | a bullet's target is the highest-indexed invader it overlaps, or none |
| Simulation.ResolveBullet | game.js:836-866 | one bullet against the formation: a miss keeps it; a hit removes it and its target, scores `KillScore`, may drop an item under both caps, and adds an explosion |
| Simulation.KillPass | game.js:835-867 | the bullet pass of `updateEnemies`: `ResolveBullet` for each bullet from the last to the first |
| Simulation.ResolveFacts | game.js:835-867 | each bullet survives or kills exactly one invader; each kill adds ceil(points × multiplier) and one kill; drops stay within both caps of 4 |
| Simulation.MissSurvives | game.js:835-867 | a bullet that overlaps no invader is kept and changes nothing else |
| Simulation.FateOf | game.js:870-903 | a moved enemy bullet leaves below the bottom edge, else is absorbed by an active shield, else hits the ship on contact, else flies on |
| Simulation.EnemyBulletsAfter | game.js:870-903 | the enemy bullets that still fly after one step, order kept |
| Simulation.EnemyBulletsStillFlying | game.js:870-903 | every enemy bullet kept is the moved form of an old one that is still flying (on the field, not absorbed, not hitting the ship), and every old bullet whose moved form is still flying is kept |
| Simulation.EnemyBulletAccounting | game.js:870-903 | every enemy bullet is kept, explodes, or leaves the field, and only exploded ones cost a life |
| Simulation.ShieldProtects | game.js:880-901 | an active shield never costs more lives, and costs none when it catches every bullet that hits the ship |
| Simulation.ItemsAfter | game.js:789-810 | the items that stay after one step: above the bottom edge and not touching the ship, order kept |
| Simulation.CollectedKinds | game.js:789-810 | the kinds of the items the ship collects in one step, in the order the backward loop meets them |
| Simulation.PickupAll | game.js:802-803 | the ledger after `addPowerUp` for each collected kind in turn |
| Simulation.ItemsStillFalling | game.js:789-810 | every item kept is the moved form of an old one that is above the bottom edge and does not touch the ship, and every old item whose moved form is like that is kept |
| Simulation.ItemAccounting | game.js:789-810 | every item is kept, collected or lost, never two of these |
| Simulation.PickupAllFacts | game.js:789-810 | collecting a batch starts exactly its kinds at `now`, keeps the other effects, and counts one pickup per shield collected |
| Simulation.AgeParticles | game.js:759-760 | dead particles are dropped and every live one loses one life, order kept |
| Simulation.AgedLivesNonNegative | game.js:759-762 | aging adds no particle and leaves no negative life |
| Simulation.BurstAges | game.js:759-762 | a burst loses one life per tick, as a whole |
| Simulation.AgeAppend | game.js:759-762 | particles age independently of each other |
| Simulation.FireIndex | game.js:908 | the firing invader's index is within the formation |
| Simulation.FiresAt | game.js:907 | enemies fire on the ticks that are multiples of `enemySpawnRate` |
| Simulation.FireCadence | game.js:907 | consecutive enemy shots are exactly `enemySpawnRate` ticks apart |
| Simulation.EnemyShot | game.js:910-913 | an enemy bullet leaves from the middle of the invader's bottom edge, moving down |
| Game.MovePhase | game.js:735-743 | the tick counter goes up by one and the held keys move the ship |
| Game.ExpirePhase | game.js:746 | `powerUpManager.update()`: the effects that have run out end |
| Game.CollectPhase | game.js:747 | `updatePowerUps()`: the items move, and the ones touching the ship are collected, counted and sparkle |
| Game.PowerUpPhase | game.js:746-747 | expiry, then collection |
| Game.BulletPhase | game.js:750 | `updateBullets()` on the bullet list |
| Game.MarchPhase | game.js:824 | every invader moves |
| Game.BottomPhase | game.js:827-832 | an invader past the bottom line takes every life |
| Game.KillPhase | game.js:835-867 | the bullet pass: invaders, bullets, score, kills, items, drop count and explosions become `KillPass`'s |
| Game.EnemyPhase | game.js:823-868 | `updateEnemies()`: march, bottom check, then the bullet pass |
| Game.EnemyBulletPhase | game.js:870-903 | `updateEnemyBullets()`, with the shield on exactly when the ledger lists it |
| Game.AgePhase | game.js:759-760 | the particle filter and update |
| Game.FirePhase | game.js:905-916 | `enemyActions()`: on a firing tick with invaders left, the drawn invader's shot is added |
| Game.NextWavePhase | game.js:767-780 | the next wave: wave + 1, drops reset, the unlock chain, and the new formation |
| Game.WavePhase | game.js:766-782 | the next wave starts exactly when no invader is left |
| Game.EndPhase | game.js:784-786 | the game ends exactly when no lives are left |
| Game.PlayPhases | game.js:735-763 | the phases of `update` before the wave and game-over checks, in the source's order |
| Game.Step | game.js:732-787 | one whole `update` of a running game, as a function of the game state and the tick's inputs |
| Game.SpaceInvadersGame.Summary | game.js:1009-1017 | the record `endGame` reports: score, wave, items collected, rounded play time, shots, kills and difficulty name |
| Game.SpaceInvadersGame.constructor | game.js:572-621 | a new game is Playing with 3 lives at wave 1 and tier 1, has the wave-1 formation and empty lists, and its ledger is fresh |
| Game.SpaceInvadersGame.SpawnWave | game.js:715-730 | the nested loops build exactly `SpawnGrid` for the current wave |
| Game.SpaceInvadersGame.UpdatePowerUps | game.js:789-810 | the splice loop leaves `ItemsAfter` on screen, applies `PickupAll` of the collected kinds to the ledger, counts them, and adds 16 sparkles per pickup; everything else is unchanged (`Snapshot` becomes `CollectPhase` of the old one) |
| Game.SpaceInvadersGame.UpdateBullets | game.js:812-821 | the splice loop leaves exactly `AdvanceBullets` of the old list and changes nothing else (`BulletPhase`) |
| Game.SpaceInvadersGame.MoveEnemies | game.js:824 | the invaders become `MovedAll` of the old ones and nothing else changes (`MarchPhase`) |
| Game.SpaceInvadersGame.CheckBottom | game.js:827-832 | lives drop to 0 exactly when an invader has reached the bottom line, and nothing else changes (`BottomPhase`) |
| Game.SpaceInvadersGame.TargetOf | game.js:837-840 | the scan finds `TargetIndex` |
| Game.SpaceInvadersGame.ResolveHits | game.js:835-867 | the nested splice loops leave exactly the `KillPass` result: invaders, bullets, score, kills, items, drop count and explosions; nothing else changes (`KillPhase`) |
| Game.SpaceInvadersGame.UpdateEnemies | game.js:823-868 | move, then the bottom check, then the kill pass on the moved formation, with the exact result of each, and nothing else changed (`EnemyPhase`) |
| Game.SpaceInvadersGame.UpdateEnemyBullets | game.js:870-903 | the splice loop leaves `EnemyBulletsAfter`, costs one life per unabsorbed hit, and adds 8 particles per explosion; with the ledger consistent, `Snapshot` becomes `EnemyBulletPhase` of the old one |
| Game.SpaceInvadersGame.EnemyActions | game.js:905-916 | on a firing tick with invaders left, one shot from the drawn invader is appended; otherwise nothing changes (`FirePhase`) |
| Game.SpaceInvadersGame.EndGame | game.js:1002-1018 | the game is over; the history gains exactly this game's summary, the aggregates become `Record` of the old ones and that summary, `lastGameStats` is the summary's fields with the timestamp, and the statistics stay consistent (`EndPhase` when no lives are left) |
| Game.SpaceInvadersGame.TickPowerUps | game.js:735-749 | the tick counter advances, the ship moves, the ledger becomes `PickupAll` after `Purge`, and the whole game state becomes `PowerUpPhase` of `MovePhase` of the old one |
| Game.SpaceInvadersGame.RefreshPowerUps | game.js:746-749 | the ledger is purged at `now` before items are collected, the number of items never grows, and the game state becomes exactly `PowerUpPhase` of the old one |
| Game.SpaceInvadersGame.Combat | game.js:823-868 | kills equal the invaders removed; score grows by kills × ceil(points × multiplier); lives drop to 0 only on reaching the bottom; the game state becomes exactly `EnemyPhase` of `BulletPhase` of the old one |
| Game.SpaceInvadersGame.Aftermath | game.js:757-765 | lives never rise, the invariant is kept, and the game state becomes exactly `FirePhase` of `AgePhase` of `EnemyBulletPhase` of the old one |
| Game.SpaceInvadersGame.NextWave | game.js:768-782 | the wave goes up by one, the drop count resets, the tier follows the wave (with 32 upgrade sparkles on an unlock), a fresh formation spawns, and nothing else changes (`NextWavePhase`) |
| Game.SpaceInvadersGame.Upgrade | game.js:771-777 | the tier becomes `NextBulletLevel` of the old tier and the new wave, with 32 sparkles exactly on an unlock, and nothing else changes |
| Game.SpaceInvadersGame.Play | game.js:732-765 | one tick's phases keep the invariant; score never goes down, reaching the bottom leaves no lives, and the game state becomes exactly `PlayPhases` of the old one |
| Game.SpaceInvadersGame.Tick | game.js:732-787 | a full tick keeps the invariant, scores every kill, advances the wave exactly when the field is cleared, and ends the game (recording it once, with the aggregates updated by `Record`) when lives run out; the game state becomes exactly `Step` of the old one |
| Game.SpaceInvadersGame.Finish | game.js:766-786 | a cleared field starts the next wave; no lives left turns the state to Game Over and records the game; otherwise the statistics are untouched; the game state becomes `EndPhase` of `WavePhase` of the old one |
| Game.SpaceInvadersGame.Update | game.js:732-787 | nothing at all changes unless the state is Playing, and then the game state becomes exactly `Step` of the old one |
| Game.SpaceInvadersGame.Fire | game.js:627-630 | a shot appends `Player.Shoot`'s volley and adds its count to `bulletsFired` |
| Game.SpaceInvadersGame.RapidFireTick | game.js:644-650 | while Playing with Rapid-fire active, the bullets become `Player.Shoot`'s list and `bulletsFired` grows by its count; otherwise nothing changes |
| Game.SpaceInvadersGame.TogglePause | game.js:1028-1046 | pause flips only while Playing |
| Game.SpaceInvadersGame.Frame | game.js:1133-1141 | a paused frame changes nothing, and an unpaused frame of a running game makes the game state exactly `Step` of the old one |

## Left out

- Sound (`SoundManager`), drawing, the DOM and the modals are not modelled. They produce no game
  state.
- Key and touch listeners are not modelled. Held keys are the `left` and `right` of `TickInput`, and
  a key or button shot is `Fire`.
- The 100 ms `setInterval` timer and `requestAnimationFrame` scheduling are left out. Their
  callbacks are `RapidFireTick` and `Frame`, and the environment decides when to call them.
- `localStorage` and `JSON` persistence (`loadScores`, `saveScores`, `loadStats`, `saveStats`) are
  left out. The stores are in memory only. `getScores` and `getStats` only return fields.
- `Date.now()` and `new Date().toISOString()` are inputs.
- `Math.random()` is an input whose values lie in [0, 1).
- `Math.sqrt` in the shield test is replaced by comparing the squared distance with 30².
- Particle positions, velocities, gravity and decay are floating-point cosmetics and are left out. A
  particle is its remaining life; the model keeps the life counter and the `life > 0` filter.
- The rotation of falling items is not modelled. It is only drawn.
- `PowerUpManager.player` is not modelled. It is stored but never read.
- The bonus-life machinery (`lastLifeRewardScore`, `createLifeRewardEffect`) is not modelled. The
  update never calls it.
- `resumeGame` is not modelled. It is `togglePause` behind the `isPaused` test.
- `endGame`'s choice between the high-score modal and the leaderboard display is left out. It only
  picks which DOM element to show.
- UpdateEnemyBullets: the shield flag is read once for the whole pass. The ledger does not change
  during the pass, so this matches the source, which reads it once per bullet.
- Tick: the drop draws are a function of the kill's ordinal within the tick, not a stream of
  `Math.random()` calls. Each kill has its own roll, kind and drift draws. The model does not capture
  that a kill which drops nothing consumes fewer calls of the generator.
- HighScores.Insert and HighScores.SortByScore: their own contracts state only lengths.
  Sortedness, stability and permutation are proved as the separate lemmas listed above.
- Floating-point rounding is not modelled. Positions and multipliers are exact rationals.
- The constructor's default difficulty (`'NORMAL'` when none is given) is not modelled. The
  constructor always receives a difficulty.
- Tick: one `now` stands for every `Date.now()` call within a tick. This covers
  `powerUpManager.update` and each `addPowerUp` made while collecting. The calls in the source
  could read clocks a few milliseconds apart; the model takes them to be equal.
