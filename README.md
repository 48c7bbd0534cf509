# Space shooter core, modelled in Dafny

This project models the gameplay core of a small vertical space shooter written in
Python with a windowing library. The modelled parts are:

- the game objects (`scripts/GameplayObjects.py`): the player ship, enemy ships,
  the boss, the player's and the boss's projectiles, and falling power-ups;
- the five levels that place those objects (`scripts/Levels.py`);
- the title-screen menu (`scripts/Menu.py`).

Every object that the program updates in place is a Dafny `class` holding the
program's fields, with two groupings. An object's rectangle and its sub-pixel
accumulators `dx`/`dy` form one `Body` value, the field `body`. The player's seven
stat fields (projectileDamage, projectileSpeed, shootingSpeed, maxSpeed,
speedDampingFactor, acceleration, invincibility) form one `Loadout` value, the field
`loadout`. Every frame method is a Dafny `method` with a `modifies` frame, and its
`ensures` states the object's new state and the scene's new lists. The
loops the program runs over live lists are modelled as index loops that re-read the
list on every step. One example is the projectile's collision loop, which can delete
itself from the list it walks. Another is the player's pickup and countdown loops,
which delete from the list they iterate over. Each such loop is specified by a pure
function (`HitScan`, `CollectFrom`, `TickFrom`), and the lemmas state what those
functions guarantee.

Modules, in dependency order:

- `Geometry` (geometry.dfy):
  - the screen size;
  - rectangles and their strict-overlap collision test;
  - the sub-pixel movement accumulator `moveFloat`, with the library's truncating
    conversion of floats to integer pixels.
- `Lists` (lists.dfy): `list.remove`-style deletion by identity, which every `die`
  method performs.
- `Host` (host.dfy): the few parts of the game object the core touches (running
  flag, end score, scene switches).
- `Gameplay` (gameplay.dfy): the scene's object lists and the six kinds of game
  object.
- `Levels` (levels.dfy): the level classes, their kill scores and the enemy
  layouts their `load` methods build.
- `Menus` (menu.dfy): the menu, its highlighted item and what activating an item
  does.

## Model

| member | source | states |
|---|---|---|
| Geometry.Trunc | scripts/GameplayObjects.py:33-38 | `int()` of a float truncates toward zero: the result is within 1 of the input, on the same side of zero and no further from zero |
| Geometry.MoveFloat | scripts/GameplayObjects.py:30-38 | position plus accumulator grows by exactly the requested step; the accumulator stays within 1; an axis moves iff its accumulator passes 1 in size, and then by its truncated value; the size never changes |
| Geometry.MoveManyConserves | scripts/GameplayObjects.py:30-38 | over any sequence of `moveFloat` calls, nothing is lost: pixel position plus accumulator equals the start plus the sum of the steps, and the pixel position is within 1 of the exact one |
| Geometry.CollisionFacts | scripts/GameplayObjects.py:161-162 | the overlap test used for every collision is symmetric, and rectangles that only share an edge do not collide |
| Lists.IndexOf | scripts/GameplayObjects.py:176-178 | the index found is the first occurrence of the element |
| Lists.RemoveFirst | scripts/GameplayObjects.py:172-179 | deleting by identity leaves the list unchanged when the element is absent and otherwise shortens it by one, adding nothing |
| Lists.RemoveFirstSplit | scripts/GameplayObjects.py:176-179 | deleting removes exactly the first occurrence: the list before it followed by the list after it |
| Lists.RemoveFirstCounts | scripts/GameplayObjects.py:176-179 | the result is the input multiset minus one copy of the element, and every other element stays |
| Lists.RemoveFirstIn | scripts/GameplayObjects.py:175-179 | the search-and-delete loop computes exactly `RemoveFirst` |
| Lists.RemoveFirstOrder | scripts/GameplayObjects.py:176-179 | elements before the deleted one keep their index and later ones move down by one |
| Lists.RemoveTimesIdempotent | scripts/GameplayObjects.py:161-179 | calling `die` several times on a list that holds the object at most once has the effect of one call |
| Lists.DieTwice | scripts/GameplayObjects.py:172-179 | a second `die` of an object already gone removes nothing more |
| Host.Game.constructor | scripts/Game.py:16-17 | a new game is running with end score 0 and no scene switches requested |
| Gameplay.StartDuration | scripts/GameplayObjects.py:52-68 | every kind of power-up lasts a positive number of frames |
| Gameplay.Equip | scripts/GameplayObjects.py:223-249 | the player's stats for a set of active power-up kinds: base stats with none active; power and speed set their boosted stats; invincibility holds iff that kind is active |
| Gameplay.BoostRestoreEquip | scripts/GameplayObjects.py:83-116 | `onPickup` adds the kind to the stats `Equip` describes and `onDurrEnd` removes it, leaving other kinds' stats alone |
| Gameplay.RestoreUndoesBoost | scripts/GameplayObjects.py:83-116 | restoring after a boost of the same kind is the same as restoring alone; from base stats, boost then restore gives the base stats back |
| Gameplay.Clamp | scripts/GameplayObjects.py:256-267 | the speed is limited to [-max, max], and a speed already inside that range is kept |
| Gameplay.Damped | scripts/GameplayObjects.py:256-267 | a damped speed never exceeds the maximum speed in size |
| Gameplay.DampedWithin | scripts/GameplayObjects.py:256-267 | when the damped speed is within the limit it is exactly speed times the damping factor, and a resting ship stays at rest |
| Gameplay.Scene.constructor | scripts/Scene.py:102-115 | a gameplay scene starts with score 0 and, once loaded, is active with no player or boss and empty object lists |
| Gameplay.Powerup.constructor | scripts/GameplayObjects.py:52-68 | a power-up's duration starts at its kind's start duration; it is not picked up and has no player |
| Gameplay.Powerup.OnPickup | scripts/GameplayObjects.py:83-98 | picking up marks the power-up as picked, appends it to the player's active list and boosts the player's stats for its kind |
| Gameplay.Powerup.OnDurrEnd | scripts/GameplayObjects.py:101-116 | expiry restores the base stats of its kind and deletes it from the player's active list |
| Gameplay.Powerup.Die | scripts/GameplayObjects.py:118-126 | deletes the power-up from the player's active list or from the scene's falling list |
| Gameplay.Powerup.Update | scripts/GameplayObjects.py:70-81 | inactive scene: nothing changes. Picked up: counts down, and at zero expires. Falling: moves down 3 pixels and leaves the list below the screen |
| Gameplay.Kinds | scripts/GameplayObjects.py:330-333 | the set of kinds holds exactly the kinds some entry of the list has |
| Gameplay.RemoveKeepsDistinct | scripts/GameplayObjects.py:101-116 | deleting an entry keeps an active list free of repeated kinds |
| Gameplay.RemoveTakesKind | scripts/GameplayObjects.py:101-116 | once the only entry of a kind is deleted, no entry of that kind is left |
| Gameplay.KindsAfterRemove | scripts/GameplayObjects.py:101-116 | expiry removes exactly its kind from the active kinds and the power-up from the list |
| Gameplay.KindsAfterAppend | scripts/GameplayObjects.py:83-98 | picking up a kind not active adds exactly that kind and keeps kinds distinct |
| Gameplay.Restart | scripts/GameplayObjects.py:330-333 | restarting a kind's durations changes no power-up's entry in the duration table, only values |
| Gameplay.CollectFrom | scripts/GameplayObjects.py:326-336 | the pickup scan keeps every duration entry, and the lists it leaves hold only power-ups that were there before; its refresh branch is stated by `CollectRefreshes` and `CollectKeepsActive`, its pickup branch by `CollectActive` |
| Gameplay.CollectActive | scripts/GameplayObjects.py:326-336 | the pickup scan only appends to the active list, and only power-ups that were touched, came from the falling list and whose kind was not active; so power-ups never stack |
| Gameplay.CollectWorld | scripts/GameplayObjects.py:326-336 | a power-up leaves the falling list only when the player touched it |
| Gameplay.CollectRefreshes | scripts/GameplayObjects.py:327-336 | touching a power-up whose kind is active is a refresh: that step keeps the active list, sets every active entry of the kind to its start duration and no other duration changes, and at the end of the scan those entries still hold their start duration |
| Gameplay.CollectHoldsStart | scripts/GameplayObjects.py:330-333 | an active entry at its start duration keeps it through the rest of the scan |
| Gameplay.CollectKeepsOthers | scripts/GameplayObjects.py:326-336 | the scan keeps every entry of the active list, and changes only durations of power-ups that end up active |
| Gameplay.CollectSpares | scripts/GameplayObjects.py:326-336 | a power-up neither active nor touched does not become active and keeps its duration; every entry of the new active list was active or touched |
| Gameplay.CollectKeepsActive | scripts/GameplayObjects.py:327-336 | when every touched power-up is of a kind already active, the active list comes out of the scan unchanged |
| Gameplay.CollectSkipsNext | scripts/GameplayObjects.py:326-336 | deleting during the scan skips the next element: of two touched power-ups, only the first is picked up this frame |
| Gameplay.TickFrom | scripts/GameplayObjects.py:351-353 | the countdown keeps every duration entry and the active list only loses entries |
| Gameplay.TickStep | scripts/GameplayObjects.py:351-353 | one step of the countdown loop followed by the rest is the whole countdown |
| Gameplay.TickFacts | scripts/GameplayObjects.py:70-81 | the countdown keeps kinds distinct, only appends to the expired list, every entry that left the active list has expired, and every expired one has duration 0 |
| Gameplay.TickSkipsNext | scripts/GameplayObjects.py:351-353 | an expiry skips the next entry's countdown in that frame |
| Gameplay.AfterHit | scripts/GameplayObjects.py:162-170 | one hit never adds enemies to the list |
| Gameplay.HitCounts | scripts/GameplayObjects.py:161-170 | the hit and killed lists only grow; a ghost bullet hits at most one more enemy and never dies; any other projectile calls `die` once per new hit |
| Gameplay.HitTargets | scripts/GameplayObjects.py:161-170 | every new hit touched the projectile, was in the enemy list and had not been hit by it before; no enemy is hit twice |
| Gameplay.HitKills | scripts/GameplayObjects.py:161-170 | an enemy is newly killed iff it was newly hit and the damage took its health to 0 or below |
| Gameplay.KillAt | scripts/GameplayObjects.py:161-170 | the same if-and-only-if for one enemy |
| Gameplay.KillStep | scripts/GameplayObjects.py:162-164 | one hit marks only the struck enemy as hit, and killed when fatal; later steps keep those marks |
| Gameplay.KilledPrefix | scripts/GameplayObjects.py:161-170 | a kill is never undone by the rest of the scan |
| Gameplay.PiercingVersusGhost | scripts/GameplayObjects.py:161-170 | facing two touching enemies, a normal projectile keeps scanning and hits both; a ghost bullet stops after the first |
| Gameplay.HitStep | scripts/GameplayObjects.py:162-170 | a hit either ends the scan (ghost bullets) or continues it at the next index |
| Gameplay.HitSkip | scripts/GameplayObjects.py:162 | an enemy not touched, or already hit, is passed over |
| Gameplay.DropBody | scripts/GameplayObjects.py:402-407 | moving a dropped power-up onto the enemy's centre keeps its size |
| Gameplay.Landings | scripts/GameplayObjects.py:402-407 | the kills of a scan move only power-ups already known: the set of bodies keeps its keys |
| Gameplay.LandingsStep | scripts/GameplayObjects.py:402-407 | one more death moves only the power-up that enemy carries, to its drop point |
| Gameplay.LandingsAfterHit | scripts/GameplayObjects.py:162-164 | a hit that kills moves the enemy's power-up as one more step of `Landings`; a hit that does not kill moves nothing |
| Gameplay.LandingsKeep | scripts/GameplayObjects.py:402-407 | a power-up no killed enemy carried stays where it was |
| Gameplay.LandingsDrop | scripts/GameplayObjects.py:402-407 | a power-up carried by exactly one killed enemy lands at that enemy's drop point |
| Gameplay.Health | scripts/GameplayObjects.py:418-421 | the health table covers exactly the listed enemies |
| Gameplay.Durations | scripts/GameplayObjects.py:70-81 | the duration table covers exactly the listed power-ups |
| Gameplay.Launched | scripts/GameplayObjects.py:130-147 | a new shot is centred on the muzzle, within one pixel, at the muzzle's height, with the sprite's size and an empty accumulator |
| Gameplay.Projectile.constructor | scripts/GameplayObjects.py:130-147 | a projectile starts at the muzzle with nothing hit and appends itself to the scene's list |
| Gameplay.Projectile.Die | scripts/GameplayObjects.py:172-179 | in an active scene it deletes itself from the projectile list, otherwise nothing changes |
| Gameplay.Projectile.Update | scripts/GameplayObjects.py:149-170 | moves up by its speed; above the screen it dies. Otherwise the enemy list, hits, health, score, end checks, drops and projectile list are exactly what `HitScan` computes, and each power-up carried by a listed enemy is where `Landings` puts it after the scan's kills |
| Gameplay.Projectile.Scan | scripts/GameplayObjects.py:161-170 | the collision loop leaves the scene as `HitScan` describes |
| Gameplay.Projectile.Sweep | scripts/GameplayObjects.py:161-170 | the loop itself, from any state that matches the scan, ends in the state matching the whole scan |
| Gameplay.Projectile.ScanStarts | scripts/GameplayObjects.py:161 | before the loop, the scene matches the scan's start state |
| Gameplay.Projectile.Visit | scripts/GameplayObjects.py:162-170 | one loop iteration performs exactly one step of the scan, stops the loop exactly when the scan stops, keeps the carried power-ups where `Landings` puts them and never adds enemies |
| Gameplay.Projectile.Strike | scripts/GameplayObjects.py:163-170 | a hit damages the enemy, records it, and returns early for ghost bullets or dies otherwise |
| Gameplay.Projectile.Retire | scripts/GameplayObjects.py:165-170 | after a hit, the loop stops exactly when the shooter holds a ghost-bullet power-up; otherwise `die` is one more deletion of itself |
| Gameplay.Projectile.Wound | scripts/GameplayObjects.py:163-164 | damaging and recording the enemy is the scan's hit step, and the carried power-up bodies stay those `Landings` gives for the kills so far |
| Gameplay.Projectile.Hurt | scripts/GameplayObjects.py:163-164 | the enemy takes the damage and is recorded as hit; if that kills it, its power-up moves to the enemy's drop point, otherwise the power-up stays where it was |
| Gameplay.Projectile.Take | scripts/GameplayObjects.py:162-170 | the body of the loop at a touched enemy not hit before: one hit step of the scan, stopping exactly when the shooter holds ghost bullets |
| Gameplay.BossProjectile.constructor | scripts/GameplayObjects.py:183-197 | a boss shot starts at the muzzle with its direction and speed and appends itself to the scene's list |
| Gameplay.BossProjectile.Update | scripts/GameplayObjects.py:199-211 | in an active scene it moves by direction times speed and dies below the screen |
| Gameplay.BossProjectile.Die | scripts/GameplayObjects.py:213-218 | deletes itself from the boss projectile list |
| Gameplay.Player.constructor | scripts/GameplayObjects.py:223-249 | the ship starts centred, 10 pixels above the bottom, at rest, with base stats and no power-ups |
| Gameplay.Player.UpdateSpeed | scripts/GameplayObjects.py:256-267 | both speeds are damped and limited by the maximum speed |
| Gameplay.Player.Damp | scripts/GameplayObjects.py:256-267 | the damping of one speed component, with its two-sided cut-off, computes exactly `Damped`, so the result never exceeds the maximum speed in size |
| Gameplay.Player.Move | scripts/GameplayObjects.py:272-288 | the ship moves by `moveFloat`, is pushed back inside the window horizontally and into its band vertically (bottom edge between 0 and the window's height), and the speed on an axis that hit an edge drops to 0; it always ends within those bounds, so it can rest entirely above the top edge |
| Gameplay.Player.Shoot | scripts/GameplayObjects.py:290-296 | appends one new projectile, launched from the nose, with the player's current shot speed and damage |
| Gameplay.Player.HandleInput | scripts/GameplayObjects.py:298-307 | each held key of A/D/S/W (left, right, down, up) adds the acceleration in its direction, independently of the others |
| Gameplay.Player.Die | scripts/GameplayObjects.py:355-357 | the game's end score becomes the scene's score and the end screen is requested |
| Gameplay.Player.Threatened | scripts/GameplayObjects.py:313-324 | the two loops report true iff some enemy or boss shot overlaps the ship |
| Gameplay.Player.Holds | scripts/GameplayObjects.py:330-333 | the search reports whether a power-up of that kind is active |
| Gameplay.Player.RefreshKind | scripts/GameplayObjects.py:330-333 | every active power-up of the kind restarts its duration, others keep theirs, and the result says if there was one |
| Gameplay.Player.CollectPowerups | scripts/GameplayObjects.py:326-336 | the pickup loop leaves the falling list, active list and durations exactly as `CollectFrom` computes, and keeps the player valid (stats match the active kinds); a power-up neither touched nor active is left entirely unchanged |
| Gameplay.Player.ScanPowerups | scripts/GameplayObjects.py:326-336 | the pickup loop itself: the falling list, active list and durations exactly as `CollectFrom` computes; the player stays valid; power-ups not touched keep their picked-up flag and player |
| Gameplay.Player.Pick | scripts/GameplayObjects.py:327-336 | one iteration of the pickup loop is one step of `CollectFrom` |
| Gameplay.Player.Settle | scripts/GameplayObjects.py:334-336 | a touched power-up is adopted if its kind was not active, and in every case leaves the falling list |
| Gameplay.Player.Adopt | scripts/GameplayObjects.py:334-335 | picking up appends it to the active list and keeps the stats in line with the active kinds |
| Gameplay.Player.UpdatePowerups | scripts/GameplayObjects.py:351-353 | the countdown loop leaves the active list and durations as `TickFrom` computes and keeps the player valid |
| Gameplay.Player.Count | scripts/GameplayObjects.py:352-353 | one iteration of the countdown loop is one step of `TickFrom` |
| Gameplay.Player.Expire | scripts/GameplayObjects.py:101-116 | after an expiry, the restored stats are exactly those of the remaining active kinds |
| Gameplay.Player.Update | scripts/GameplayObjects.py:309-353 | inactive scene: nothing changes. Touched by an enemy or boss shot without invincibility: the player dies and nothing else changes. Otherwise: the falling list as the pickup scan leaves it, the active list and durations as the countdown then computes them, the exact body and speeds of `Steered` under the stats of the kinds now active, the cooldown of the shooting rule, and a new shot, fresh and fired from the nose with those stats, exactly when the cooldown was 0 and the player was shooting; a power-up neither touched nor active is left entirely unchanged |
| Gameplay.Player.Advance | scripts/GameplayObjects.py:326-353 | pickup, then movement, shooting and countdown: the falling list as the pickup scan leaves it; the body and speeds exactly as `Steered` computes them with the stats of the kinds active after the pickup; the shooting rule's cooldown; a fresh shot from the nose with those stats exactly when the cooldown was 0 and the player was shooting; the countdown run on the list the pickup produced; a power-up neither touched nor active is left entirely unchanged |
| Gameplay.Player.Cruise | scripts/GameplayObjects.py:338-353 | body and speeds exactly as `Steered` computes them from the old ones with the current stats; the cooldown counts down or reloads, and one fresh shot (this shooter, the current shot speed and damage, launched from the middle of the moved ship's top edge, nothing hit yet) is appended exactly when it was 0 and the player was shooting; the countdown runs as `TickFrom`; the falling list is untouched |
| Gameplay.Player.Fly | scripts/GameplayObjects.py:338-349 | movement then the shooting rule: body and speeds exactly as `Steered` computes them, the cooldown of the shooting rule, and one fresh shot from the moved ship's nose with the current stats exactly when the cooldown was 0 and the player was shooting; earlier shots are kept in order |
| Gameplay.Player.Steer | scripts/GameplayObjects.py:338-340 | the new body and speeds are exactly those `Steered` computes from the old ones: damped speeds, the move, and the clamp that zeroes the speed on the axis that left the band |
| Gameplay.Player.Steered | scripts/GameplayObjects.py:256-288 | after damping, moving and clamping, the ship keeps its size, lies inside the screen's width and its vertical band, each speed is at most the maximum in size, and each speed is either the damped one or zero (on an axis that was clamped) |
| Gameplay.Player.Reload | scripts/GameplayObjects.py:342-349 | fires one shot iff the cooldown was 0 and the player is shooting, then reloads; otherwise counts down; the shot fired is fresh, shot by this player at the current shot speed and damage, launched from the middle of its top edge, and has hit nothing |
| Gameplay.Enemy.constructor | scripts/GameplayObjects.py:361-379 | an enemy starts at its place with its health, score, power-up and rightward speed (2, 0) |
| Gameplay.Enemy.Update | scripts/GameplayObjects.py:381-396 | moves by its speed; on leaving the screen sideways it is put back, reverses and drops 50 pixels; a ship no wider than the screen ends within it |
| Gameplay.Enemy.Die | scripts/GameplayObjects.py:398-416 | the score grows by its value, its power-up is dropped at its centre, it leaves the enemy list and an end check is counted |
| Gameplay.Enemy.Damage | scripts/GameplayObjects.py:418-421 | health falls by the damage, and the enemy dies iff health reaches 0 or below; on death its power-up's body moves to the drop point |
| Gameplay.Enemy.SetSpeed | scripts/GameplayObjects.py:423-425 | sets the speed and returns the enemy itself |
| Gameplay.PhaseAfter | scripts/GameplayObjects.py:518-523 | the boss's phase stays in 0..2, and phase 2 is reached only at half health or below |
| Gameplay.PhaseCycle | scripts/GameplayObjects.py:518-523 | above half health the boss alternates between phases 0 and 1; at half health or below it cycles 0, 1, 2 |
| Gameplay.PhaseTuning | scripts/GameplayObjects.py:528-537 | every phase has a positive shot speed and shooting interval |
| Gameplay.ShotPlan | scripts/GameplayObjects.py:484-515 | phase 2 fires three shots, phases 0 and 1 one each |
| Gameplay.ShotPlanUnit | scripts/GameplayObjects.py:484-515 | in phases 0 and 2, every shot direction is a unit vector, given a unit aim and cos 30° |
| Gameplay.EscortPlan | scripts/GameplayObjects.py:539-602 | a phase change spawns one escort in phases 0 and 1 and two in phase 2, each a special ship with 3 hit points, 5000 points and a power-up, 100 pixels below the boss |
| Gameplay.SpawnPlanShape | scripts/GameplayObjects.py:604-621 | spawning n ships yields n pairs, 50 pixels further out each time, one moving left and one right, 100 pixels below the boss |
| Gameplay.SpecsOfFew | scripts/GameplayObjects.py:539-602 | the ships spawned read back as their snapshots, in order |
| Gameplay.Boss.constructor | scripts/GameplayObjects.py:429-448 | the boss starts centred, 30 pixels down, with 120 hit points, 100000 points, phase 0 and its starting timers |
| Gameplay.Boss.Shoot | scripts/GameplayObjects.py:484-515 | appends exactly the shots of the phase's plan, all new, from the boss's muzzle, with the current shot speed |
| Gameplay.Boss.SpawnShip | scripts/GameplayObjects.py:604-621 | appends exactly `SpawnPlan`'s ships, all new |
| Gameplay.Boss.Flank | scripts/GameplayObjects.py:610-621 | one iteration appends the left and right ship of the pair |
| Gameplay.Boss.NextPhase | scripts/GameplayObjects.py:517-602 | the phase advances as `PhaseAfter` says, its timer and tuning reset, and the phase's escort is appended |
| Gameplay.Boss.Escort | scripts/GameplayObjects.py:539-602 | appends exactly the new phase's escort ships, each carrying a new power-up |
| Gameplay.Boss.Update | scripts/GameplayObjects.py:450-482 | the boss glides between 100-pixel margins and reverses at them; it shoots the phase's volley when its cooldown is 0, each shot with the plan's direction and launched from the muzzle under the moved boss; it spawns when the spawn cooldown is 0; it changes phase when the phase timer runs out; the enemy list only grows by those ships, all of them new |
| Gameplay.Boss.Grow | scripts/GameplayObjects.py:470-482 | spawning and ageing together append the spawn ships followed by the escort, all of them new |
| Gameplay.Boss.Glide | scripts/GameplayObjects.py:451-460 | moves by its speed, reverses near a margin and is clamped between the margins |
| Gameplay.Boss.Volley | scripts/GameplayObjects.py:462-468 | shoots the phase's plan when the cooldown is 0 and reloads, otherwise counts down; each shot has the plan's direction and is launched from the muzzle below the boss's centre |
| Gameplay.Boss.Reinforce | scripts/GameplayObjects.py:470-477 | spawns the pair ships when the spawn cooldown is 0 and reloads it, otherwise counts down |
| Gameplay.Boss.Age | scripts/GameplayObjects.py:479-482 | when the phase timer reaches its last frame the phase changes; otherwise the timer counts down and nothing else changes |
| Levels.Multiplier | scripts/Levels.py:42-43 | every level's score multiplier is at least 1 |
| Levels.KillScores | scripts/Levels.py:14-15 | the truncated kill scores are 100/500, 150/750, 450/2250, 600/3000 and 1000/5000, and a special kill is always worth five plain ones |
| Levels.Slot | scripts/Levels.py:123-158 | the ship the row loops place at a column sits at that column, 100 pixels per row |
| Levels.Row | scripts/Levels.py:30 | a row has eleven ships |
| Levels.RowsSize | scripts/Levels.py:29-30 | rows a to b hold eleven ships per row |
| Levels.LayoutSize | scripts/Levels.py:29-174 | the levels add 22, 45, 46, 44 and 1 enemies |
| Levels.ApartAppend | scripts/Levels.py:48-65 | two lists of ships at distinct places, also apart from each other, join into one |
| Levels.RowsApart | scripts/Levels.py:123-158 | the row loops never place two ships at one spot, and stay within their rows and columns |
| Levels.LayoutApart | scripts/Levels.py:29-158 | no level's layout puts two ships at one spot, and all of them lie in the top 400 pixels, between x = 100 and 700 |
| Levels.SpecialsApart | scripts/Levels.py:58-65 | the special ships of levels 2 and 3 do not overlap a row ship |
| Levels.CarryingAppend | scripts/Levels.py:94-109 | power-up carriers of two lists add up |
| Levels.CarryingNone | scripts/Levels.py:29-34 | a list of ships without power-ups carries none |
| Levels.RowsCarry | scripts/Levels.py:29-34 | the ordinary rows carry no power-ups |
| Levels.CarryingStep | scripts/Levels.py:136-152 | adding one ship adds its power-up to the count |
| Levels.BottomCarries | scripts/Levels.py:136-143 | level 4's bottom row carries two speed, one power and one ghost-bullet power-up |
| Levels.LayoutCarries | scripts/Levels.py:29-174 | the power-ups each level places: none in levels 1 and 5, power in level 2, power and speed in level 3, and two speed, one power and one ghost bullets in level 4 |
| Levels.FirstLastCarry | scripts/Levels.py:29-34 | levels 1 and 5 carry no power-ups |
| Levels.FourthCarries | scripts/Levels.py:123-158 | level 4 carries two speed, one power and one ghost-bullet power-up |
| Levels.SpecialsCarry | scripts/Levels.py:94-109 | level 2 carries one power-up, and level 3 one power and one speed |
| Levels.LayoutScores | scripts/Levels.py:29-158 | a plain ship is worth its hit points times the kill score; a carrier has 3 hit points and is worth the special kill score; only plain ships move left |
| Levels.RowsScores | scripts/Levels.py:123-158 | the same for every ship of the row loops |
| Levels.RowsSplit | scripts/Levels.py:52-53 | the rows from a to c are the rows from a to b followed by the rows from b to c |
| Levels.Level.constructor | scripts/Levels.py:4-16 | a level starts with empty lists and its kind's scores |
| Levels.Level.Load | scripts/Levels.py:18-176 | `load` creates a new player at rest at (370, 565) with base stats, and appends exactly the kind's layout of new enemies; the final level's boss is new, valid, in phase 0 with its starting timers and speeds |
| Levels.Level.LoadLevel2 | scripts/Levels.py:48-65 | level 2 appends its four rows and its power carrier |
| Levels.Level.LoadRows2 | scripts/Levels.py:48-57 | level 2's loops append its four rows |
| Levels.Level.LoadLevel3 | scripts/Levels.py:79-109 | level 3 appends its four rows and its two carriers |
| Levels.Level.LoadRows3 | scripts/Levels.py:79-93 | level 3's loops append its four rows |
| Levels.Level.TopRows3 | scripts/Levels.py:79-87 | level 3's first two loops append its top two rows |
| Levels.Level.AddRows | scripts/Levels.py:123-158 | the nested loops append exactly rows a to b, all new |
| Levels.Level.AddRow | scripts/Levels.py:124-158 | the inner loop appends exactly one row, all new |
| Levels.Level.Spawn | scripts/Levels.py:125-158 | the ship built for a slot is a new enemy matching `Slot` |
| Levels.Level.AddSpecial | scripts/Levels.py:58-65 | appends one new special ship with its power-up |
| Menus.NextIndex | scripts/Menu.py:48-54 | the down key moves to the next index, or stays at the last |
| Menus.PreviousIndex | scripts/Menu.py:56-62 | the up key moves to the previous index, or stays at the first |
| Menus.NextPreviousInverse | scripts/Menu.py:48-62 | up undoes down except at the last item, and down undoes up except at the first |
| Menus.Recolor | scripts/Menu.py:37-46 | after a change the new active item is highlighted and the others keep their colours, except the old active one |
| Menus.RecolorKeepsOneLit | scripts/Menu.py:37-46 | moving the highlight keeps exactly one item lit, the new active one |
| Menus.Requests | scripts/Menu.py:80-89 | activating requests a scene iff the name is "help" or "level1" |
| Menus.ActivateNames | scripts/Menu.py:80-89 | "quit" and unknown names request nothing; "help" and "level1" request their own scene |
| Menus.Item.constructor | scripts/Menu.py:5-12 | an item keeps its text, scene name and colours |
| Menus.Menu.Active | scripts/Menu.py:37-46 | the active index is -1 or the index of the active item |
| Menus.Menu.constructor | scripts/Menu.py:17-21 | a menu starts empty with no active item |
| Menus.Menu.AddItem | scripts/Menu.py:31-35 | appends a new item, and the first item added becomes active and highlighted |
| Menus.Menu.SetActiveItem | scripts/Menu.py:37-46 | the same item changes nothing; an unknown item raises and changes nothing; otherwise the highlight moves to the item |
| Menus.Menu.SetNextAsActive | scripts/Menu.py:48-54 | with no active item it raises; otherwise the active index moves as `NextIndex` says and exactly one item stays lit |
| Menus.Menu.SetPreviousAsActive | scripts/Menu.py:56-62 | with no active item it raises; otherwise the active index moves as `PreviousIndex` says and exactly one item stays lit |
| Menus.Menu.Activate | scripts/Menu.py:80-89 | with no active item it raises; "quit" stops the game; "help" and "level1" request their scene |

## Left out

- Drawing, images, fonts and sounds. A sprite is reduced to its size, supplied as a function `images`.
- Keyboard polling. `HandleInput` takes the states of the A/D/S/W keys (left, right, down, up) as four booleans.
- `random.randint(1, 3)` in the boss update. It is the `spawnCount` parameter of `Boss.Update`, which must be in 1..3.
- `getVectorTo` and `rotateVector` (square roots, cosine). The aim vector and cos 30° are inputs to `Boss.Shoot`.
- ShotPlanUnit: holds only when cos30 squared is 0.75, since floating-point cosine is not modelled.
- Floating point. Speeds, accumulators and multipliers are exact reals, so no rounding error is modelled.
- The scene's `checkForEnd`. Each call is counted in `Scene.endChecks`.
- `Game.loadScene` and the menu's `setCurrentScene`. They are recorded as `Game.requests`, not performed. This leaves out:
  - the scene unloading (becoming inactive) when a new scene loads;
  - the fact that `setCurrentScene` does not exist on the game class, which would raise.
- The diagnostic printing in the menu's `activate` and in the boss's update (the `spawn` line, scripts/GameplayObjects.py:473), and the menu's drawing and padding: console output only.
- Exceptions. A raise is returned as `Outcome.Raised`. Every modelled raise happens before the operation changes anything.
- The enemy's `height`, which equals its width and is never used.
- The boss's horizontal speed of 1.5. It is a boss field, while its enemy part keeps the default speed (2, 0).
- PhaseTuning: states only that its values are positive; the values (2, 70), (3, 60) and (3, 50) are given by its definition.
- StartDuration: states only positivity; the durations 300, 1000, 500 and 500 are given by its definition.
- Equip: states the boosted values of power and speed; the base values are given by its definition.
- scripts/Scene.py is modelled only through the gameplay scene's starting state (`Scene.constructor`). Its menu scenes, the test enemies its `load` places, its per-frame tick and its drawing are not part of this model.
- scripts/Game.py's loop, GameObjectClasses.py and GameplayObjectClasses.py are not part of this model, apart from the game fields above.
