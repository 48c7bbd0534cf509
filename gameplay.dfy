/** The gameplay objects of the shooter: power-ups, the player's and the
    boss's projectiles, the player's ship, the enemy ships and the boss,
    together with the scene lists they live in and update in place. */
module Gameplay {
  import opened Geometry
  import opened Lists
  import opened Host

  // ---------------------------------------------------------------------
  // Values
  // ---------------------------------------------------------------------

  datatype Option<T> = None | Some(value: T)

  datatype PowerupType = Power | Speed | GhostBullets | Invincibility

  /** How many updates a picked-up power-up of each kind stays active. */
  function StartDuration(t: PowerupType): (d: int)
    ensures d > 0
  {
    match t
    case Power => 300
    case Speed => 1000
    case GhostBullets => 500
    case Invincibility => 500
  }

  /** The images the scene loads; only their sizes matter to the model. */
  datatype Sprite =
    | PlayerShip | PlayerShot
    | Enemy1 | Enemy2 | Enemy3 | EnemySpecial | BossShip
    | EnemyShot | EnemyShotDirected | EnemyShotSpread
    | PowerupIcon(kind: PowerupType)

  datatype Size = Size(w: nat, h: nat)

  /** A fresh, unmoved rectangle of the given size at the origin. */
  function Placed(s: Size): Body {
    Body(Rect(0, 0, s.w, s.h), 0.0, 0.0)
  }

  /** The player's stats that power-ups change. */
  datatype Loadout = Loadout(
    projectileDamage: int,
    projectileSpeed: int,
    shootingSpeed: int,
    maxSpeed: int,
    speedDampingFactor: real,
    acceleration: real,
    invincibility: bool)

  /** The stats of the player with the given kinds of power-up active:
      each kind sets its own group of stats to the boosted values, every
      other group keeps the ship's base values. */
  function Equip(kinds: set<PowerupType>): (l: Loadout)
    ensures kinds == {} ==> l == Loadout(1, 12, 20, 8, 0.92, 0.6, false)
    ensures Power in kinds ==>
      l.projectileDamage == 4 && l.projectileSpeed == 24 && l.shootingSpeed == 14
    ensures Speed in kinds ==>
      l.maxSpeed == 11 && l.speedDampingFactor == 0.9 && l.acceleration == 1.5
    ensures l.invincibility <==> Invincibility in kinds
    ensures l.maxSpeed > 0 && l.shootingSpeed > 0 && 0.0 < l.speedDampingFactor < 1.0
  {
    Loadout(
      if Power in kinds then 4 else 1,
      if Power in kinds then 24 else 12,
      if Power in kinds then 14 else 20,
      if Speed in kinds then 11 else 8,
      if Speed in kinds then 0.9 else 0.92,
      if Speed in kinds then 1.5 else 0.6,
      Invincibility in kinds)
  }

  /** `onPickup`: overwrite the stats of kind `t` with the boosted values. */
  function Boost(l: Loadout, t: PowerupType): Loadout {
    match t
    case Power => l.(projectileDamage := 4, projectileSpeed := 24, shootingSpeed := 14)
    case Speed => l.(maxSpeed := 11, speedDampingFactor := 0.9, acceleration := 1.5)
    case GhostBullets => l
    case Invincibility => l.(invincibility := true)
  }

  /** `onDurrEnd`: overwrite the stats of kind `t` with the base values. */
  function Restore(l: Loadout, t: PowerupType): Loadout {
    match t
    case Power => l.(projectileDamage := 1, projectileSpeed := 12, shootingSpeed := 20)
    case Speed => l.(maxSpeed := 8, speedDampingFactor := 0.92, acceleration := 0.6)
    case GhostBullets => l
    case Invincibility => l.(invincibility := false)
  }

  /** Picking up and losing a kind move the loadout between exactly the
      states `Equip` describes: boosting adds the kind, restoring removes
      it, and neither touches the stats of another kind. */
  lemma BoostRestoreEquip(kinds: set<PowerupType>, t: PowerupType)
    ensures Boost(Equip(kinds), t) == Equip(kinds + {t})
    ensures Restore(Equip(kinds), t) == Equip(kinds - {t})
  {
  }

  /** Expiry undoes a pickup: from the base stats, boosting and then
      restoring the same kind gives the base stats back. */
  lemma RestoreUndoesBoost(l: Loadout, t: PowerupType)
    ensures Restore(Boost(l, t), t) == Restore(l, t)
    ensures Boost(Restore(l, t), t) == Boost(l, t)
    ensures Restore(Boost(Equip({}), t), t) == Equip({})
  {
  }

  /** Gameplay clamping of a speed component to `[-m, m]`. */
  function Clamp(v: real, m: real): (r: real)
    requires m >= 0.0
    ensures -m <= r <= m
    ensures -m <= v <= m ==> r == v
    ensures v > m ==> r == m
    ensures v < -m ==> r == -m
  {
    if v > m then m else if v < -m then -m else v
  }

  /** A speed component after one `updateSpeed`: damped by the factor of
      `l`, then clamped to its maximum speed. */
  function Damped(v: real, l: Loadout): (r: real)
    requires l.maxSpeed >= 0
    ensures Abs(r) <= l.maxSpeed as real
  {
    Clamp(v * l.speedDampingFactor, l.maxSpeed as real)
  }

  /** Below the maximum, damping is a plain scaling; at rest the ship stays
      at rest. */
  lemma DampedWithin(v: real, l: Loadout)
    requires l.maxSpeed >= 0
    ensures Abs(v * l.speedDampingFactor) <= l.maxSpeed as real ==> Damped(v, l) == v * l.speedDampingFactor
    ensures Damped(0.0, l) == 0.0
  {
  }

  /** What the level and the boss decide about an enemy ship when they
      create it: image, position, health, score value, speed and the kind
      of power-up it carries. */
  datatype EnemySpec = EnemySpec(
    sprite: Sprite, x: int, y: int,
    healthPoints: int, scoreValue: int,
    speed: (real, real), carries: Option<PowerupType>)

  // ---------------------------------------------------------------------
  // The scene: the lists every object updates in place
  // ---------------------------------------------------------------------

  /** The gameplay part of a scene: whether it is the active one, the score,
      the named slots and the object lists. `endChecks` counts the calls to
      `checkForEnd`, whose effect belongs to the scene code. */
  class Scene {
    const game: Game
    const images: Sprite -> Size
    var isActive: bool
    var score: int
    var endChecks: nat
    var player: Player?
    var boss: Boss?
    var enemies: seq<Enemy>
    var playerProjectiles: seq<Projectile>
    var bossProjectiles: seq<BossProjectile>
    var powerups: seq<Powerup>

    constructor (game: Game, images: Sprite -> Size)
      ensures this.game == game && this.images == images
      ensures isActive && score == 0 && endChecks == 0
      ensures player == null && boss == null
      ensures enemies == [] && playerProjectiles == [] && bossProjectiles == [] && powerups == []
    {
      this.game := game;
      this.images := images;
      isActive := true;
      score := 0;
      endChecks := 0;
      player := null;
      boss := null;
      enemies := [];
      playerProjectiles := [];
      bossProjectiles := [];
      powerups := [];
    }
  }

  // ---------------------------------------------------------------------
  // Power-ups
  // ---------------------------------------------------------------------

  class Powerup {
    const kind: PowerupType
    const startDuration: int
    var duration: int
    var body: Body
    var player: Player?
    var isPickedup: bool

    constructor (images: Sprite -> Size, kind: PowerupType)
      ensures this.kind == kind && startDuration == StartDuration(kind)
      ensures duration == startDuration
      ensures body == Placed(images(PowerupIcon(kind)))
      ensures player == null && !isPickedup
    {
      this.kind := kind;
      body := Placed(images(PowerupIcon(kind)));
      player := null;
      isPickedup := false;
      startDuration := StartDuration(kind);
      duration := StartDuration(kind);
    }

    /** Attach to the scene's player, join its active list and boost the
        stats of this kind. */
    method OnPickup(scene: Scene)
      requires scene.player != null
      modifies this`isPickedup, this`player, scene.player`activePowerups, scene.player`loadout
      ensures isPickedup && player == scene.player
      ensures player.activePowerups == old(scene.player.activePowerups) + [this]
      ensures player.loadout == Boost(old(scene.player.loadout), kind)
    {
      isPickedup := true;
      player := scene.player;
      player.activePowerups := player.activePowerups + [this];
      player.loadout := Boost(player.loadout, kind);
    }

    /** Expiry: put the stats of this kind back to base and leave the
        player's active list. */
    method OnDurrEnd(scene: Scene)
      requires player != null
      modifies player`loadout, player`activePowerups
      ensures player.loadout == Restore(old(player.loadout), kind)
      ensures player.activePowerups == RemoveFirst(old(player.activePowerups), this)
    {
      player.loadout := Restore(player.loadout, kind);
      Die(scene, true);
    }

    /** Remove this power-up from the player's active list or from the
        scene's list of falling power-ups. */
    method Die(scene: Scene, lookInPlayer: bool)
      requires lookInPlayer ==> player != null
      modifies (if lookInPlayer then {player} else {})`activePowerups
      modifies (if lookInPlayer then {} else {scene})`powerups
      ensures lookInPlayer ==> player.activePowerups == RemoveFirst(old(player.activePowerups), this)
      ensures !lookInPlayer ==> scene.powerups == RemoveFirst(old(scene.powerups), this)
    {
      if lookInPlayer {
        player.activePowerups := RemoveFirstIn(player.activePowerups, this);
      } else {
        scene.powerups := RemoveFirstIn(scene.powerups, this);
      }
    }

    /** One frame: a picked-up power-up counts down and expires when the
        count reaches exactly zero; a falling one drops 3 pixels and is
        removed once below the window. */
    method Update(scene: Scene)
      requires isPickedup ==> player != null
      modifies this`duration, (if isPickedup then {} else {this})`body, scene`powerups
      modifies (if player != null then {player} else {})`loadout
      modifies (if player != null then {player} else {})`activePowerups
      ensures !scene.isActive ==>
        && duration == old(duration) && body == old(body)
        && scene.powerups == old(scene.powerups)
        && (player != null ==>
              player.loadout == old(player.loadout) && player.activePowerups == old(player.activePowerups))
      ensures scene.isActive && isPickedup ==>
        && duration == old(duration) - 1 && body == old(body)
        && scene.powerups == old(scene.powerups)
        && player.loadout == (if duration == 0 then Restore(old(player.loadout), kind) else old(player.loadout))
        && player.activePowerups ==
             (if duration == 0 then RemoveFirst(old(player.activePowerups), this) else old(player.activePowerups))
      ensures scene.isActive && !isPickedup ==>
        && duration == old(duration)
        && body == old(body).At(old(body).rect.x, old(body).rect.y + 3)
        && scene.powerups ==
             (if body.rect.y > ScreenHeight then RemoveFirst(old(scene.powerups), this) else old(scene.powerups))
        && (player != null ==>
              player.loadout == old(player.loadout) && player.activePowerups == old(player.activePowerups))
    {
      if !scene.isActive {
        return;
      }
      if isPickedup {
        duration := duration - 1;
        if duration == 0 {
          OnDurrEnd(scene);
        }
      } else {
        body := body.At(body.rect.x, body.rect.y + 3);
        if body.rect.y > ScreenHeight {
          Die(scene, false);
        }
      }
    }
  }

  /** Whether some power-up in `ps` is of kind `t`. */
  predicate HasKind(ps: seq<Powerup>, t: PowerupType) {
    exists p :: p in ps && p.kind == t
  }

  /** The kinds present in `ps`. */
  function Kinds(ps: seq<Powerup>): (r: set<PowerupType>)
    ensures forall t :: t in r <==> HasKind(ps, t)
  {
    set p | p in ps :: p.kind
  }

  /** No two entries share a kind: power-ups refresh, they do not stack. */
  predicate KindsDistinct(ps: seq<Powerup>) {
    forall i, j :: 0 <= i < j < |ps| ==> ps[i].kind != ps[j].kind
  }

  /** Removing an entry from a list without repeated kinds keeps the kinds
      distinct. */
  lemma RemoveKeepsDistinct(ps: seq<Powerup>, p: Powerup)
    requires KindsDistinct(ps) && p in ps
    ensures KindsDistinct(RemoveFirst(ps, p))
  {
    var k := IndexOf(ps, p);
    var r := RemoveFirst(ps, p);
    forall i, j | 0 <= i < j < |r|
      ensures r[i].kind != r[j].kind
    {
      RemoveFirstOrder(ps, p, i);
      RemoveFirstOrder(ps, p, j);
      var i' := if i < k then i else i + 1;
      var j' := if j < k then j else j + 1;
      assert r[i] == ps[i'] && r[j] == ps[j'] && i' < j';
    }
  }

  /** In a list without repeated kinds, no entry left after a removal
      shares the removed entry's kind. */
  lemma RemoveTakesKind(ps: seq<Powerup>, p: Powerup)
    requires KindsDistinct(ps) && p in ps
    ensures forall q :: q in RemoveFirst(ps, p) ==> q.kind != p.kind
  {
    var k := IndexOf(ps, p);
    var r := RemoveFirst(ps, p);
    forall q | q in r
      ensures q.kind != p.kind
    {
      var i :| 0 <= i < |r| && r[i] == q;
      var i' := if i < k then i else i + 1;
      RemoveFirstOrder(ps, p, i);
      assert ps[i'] == q && ps[k] == p && i' != k;
    }
  }

  /** Removing the one entry of its kind from a list without repeated kinds
      keeps the kinds distinct and removes exactly that kind. */
  lemma KindsAfterRemove(ps: seq<Powerup>, p: Powerup)
    requires KindsDistinct(ps) && p in ps
    ensures KindsDistinct(RemoveFirst(ps, p))
    ensures Kinds(RemoveFirst(ps, p)) == Kinds(ps) - {p.kind}
    ensures p !in RemoveFirst(ps, p)
  {
    var r := RemoveFirst(ps, p);
    RemoveKeepsDistinct(ps, p);
    RemoveTakesKind(ps, p);
    RemoveFirstCounts(ps, p);
    forall t | t in Kinds(ps) - {p.kind}
      ensures t in Kinds(r)
    {
      var q :| q in ps && q.kind == t;
      assert q in r;
    }
  }

  /** Appending a power-up of a kind not yet present keeps the kinds
      distinct and adds exactly that kind. */
  lemma KindsAfterAppend(ps: seq<Powerup>, p: Powerup)
    requires KindsDistinct(ps) && !HasKind(ps, p.kind)
    ensures KindsDistinct(ps + [p])
    ensures Kinds(ps + [p]) == Kinds(ps) + {p.kind}
  {
    assert forall q :: q in ps + [p] <==> q in ps || q == p;
  }

  /** `durations` with every entry of `active` of kind `t` set back to its
      start duration. */
  function Restart(durations: map<Powerup, int>, active: seq<Powerup>, t: PowerupType): (r: map<Powerup, int>)
    ensures r.Keys == durations.Keys
  {
    map q | q in durations :: if q in active && q.kind == t then q.startDuration else durations[q]
  }

  // ---------------------------------------------------------------------
  // The player's power-up bookkeeping, as a function of the lists
  // ---------------------------------------------------------------------

  /** State of the pickup scan over the scene's falling power-ups: the
      falling list, the player's active list, and every power-up's
      remaining duration. */
  datatype CollectState = CollectState(
    world: seq<Powerup>, active: seq<Powerup>, duration: map<Powerup, int>)

  /** The pickup loop of the player's update, from index `i` on, over a list
      it deletes from while iterating: a touched power-up whose kind is
      already active restarts every active entry of that kind, any other
      touched one is picked up; either way it leaves the falling list, and
      the scan moves on to the next index, so the element that slid into
      the freed place is not looked at this frame. */
  function CollectFrom(ws: seq<Powerup>, i: nat, touching: set<Powerup>,
                       active: seq<Powerup>, dur: map<Powerup, int>): (c: CollectState)
    requires forall p :: p in ws ==> p in dur
    requires forall p :: p in active ==> p in dur
    ensures c.duration.Keys == dur.Keys
    ensures forall p :: p in c.active ==> p in dur
    ensures forall p :: p in c.world ==> p in ws
    decreases |ws| - i
  {
    if i >= |ws| then CollectState(ws, active, dur)
    else
      var p := ws[i];
      if p !in touching then CollectFrom(ws, i + 1, touching, active, dur)
      else if HasKind(active, p.kind) then
        CollectFrom(RemoveFirst(ws, p), i + 1, touching, active, Restart(dur, active, p.kind))
      else
        CollectFrom(RemoveFirst(ws, p), i + 1, touching, active + [p], dur)
  }

  /** Power-ups never stack: the scan keeps the active list as a prefix and
      appends only power-ups that were touched, came from the falling list
      and whose kind was not active, so the list keeps at most one entry
      per kind. */
  lemma {:induction false} CollectActive(ws: seq<Powerup>, i: nat, touching: set<Powerup>,
                                         active: seq<Powerup>, dur: map<Powerup, int>)
    requires forall p :: p in ws ==> p in dur
    requires forall p :: p in active ==> p in dur
    requires KindsDistinct(active)
    ensures var c := CollectFrom(ws, i, touching, active, dur);
      && KindsDistinct(c.active)
      && |active| <= |c.active| && c.active[..|active|] == active
      && (forall k :: |active| <= k < |c.active| ==>
            c.active[k] in touching && c.active[k] in ws && !HasKind(active, c.active[k].kind))
    decreases |ws| - i
  {
    if i < |ws| {
      var p := ws[i];
      if p !in touching {
        CollectActive(ws, i + 1, touching, active, dur);
      } else if HasKind(active, p.kind) {
        CollectActive(RemoveFirst(ws, p), i + 1, touching, active, Restart(dur, active, p.kind));
      } else {
        var a := active + [p];
        assert KindsDistinct(a);
        CollectActive(RemoveFirst(ws, p), i + 1, touching, a, dur);
        var c := CollectFrom(RemoveFirst(ws, p), i + 1, touching, a, dur);
        assert c.active[..|active|] == active by {
          assert c.active[..|a|][..|active|] == a[..|active|];
        }
        forall k | |active| <= k < |c.active|
          ensures c.active[k] in touching && c.active[k] in ws && !HasKind(active, c.active[k].kind)
        {
          if k == |active| {
            assert c.active[k] == c.active[..|a|][k];
          } else {
            assert !HasKind(a, c.active[k].kind);
          }
        }
      }
    }
  }

  /** Only touched power-ups leave the falling list. */
  lemma {:induction false} CollectWorld(ws: seq<Powerup>, i: nat, touching: set<Powerup>,
                                        active: seq<Powerup>, dur: map<Powerup, int>)
    requires forall p :: p in ws ==> p in dur
    requires forall p :: p in active ==> p in dur
    ensures var c := CollectFrom(ws, i, touching, active, dur);
      forall p :: p in ws && p !in c.world ==> p in touching
    decreases |ws| - i
  {
    if i < |ws| {
      var p := ws[i];
      if p !in touching {
        CollectWorld(ws, i + 1, touching, active, dur);
      } else {
        var r := RemoveFirst(ws, p);
        RemoveFirstCounts(ws, p);
        if HasKind(active, p.kind) {
          CollectWorld(r, i + 1, touching, active, Restart(dur, active, p.kind));
        } else {
          CollectWorld(r, i + 1, touching, active + [p], dur);
        }
      }
    }
  }

  /** Touching a power-up whose kind is already active is a refresh: that
      step leaves the active list as it is, sets every active entry of that
      kind back to its start duration and leaves every other duration
      alone, and at the end of the scan those entries still hold their
      start duration. */
  lemma CollectRefreshes(ws: seq<Powerup>, i: nat, touching: set<Powerup>,
                         active: seq<Powerup>, dur: map<Powerup, int>)
    requires forall p :: p in ws ==> p in dur
    requires forall p :: p in active ==> p in dur
    requires i < |ws| && ws[i] in touching && HasKind(active, ws[i].kind)
    ensures var t := ws[i].kind;
      var d := Restart(dur, active, t);
      && CollectFrom(ws, i, touching, active, dur) == CollectFrom(RemoveFirst(ws, ws[i]), i + 1, touching, active, d)
      && (forall q :: q in active && q.kind == t ==> d[q] == q.startDuration)
      && (forall q :: q in dur && !(q in active && q.kind == t) ==> d[q] == dur[q])
      && (forall q :: q in active && q.kind == t ==>
            CollectFrom(ws, i, touching, active, dur).duration[q] == q.startDuration)
  {
    var t := ws[i].kind;
    var d := Restart(dur, active, t);
    forall q | q in active && q.kind == t
      ensures CollectFrom(RemoveFirst(ws, ws[i]), i + 1, touching, active, d).duration[q] == q.startDuration
    {
      CollectHoldsStart(RemoveFirst(ws, ws[i]), i + 1, touching, active, d, q);
    }
  }

  /** An active entry already at its start duration stays there through the
      rest of the scan: a refresh only ever sets it back to that value. */
  lemma {:induction false} CollectHoldsStart(ws: seq<Powerup>, i: nat, touching: set<Powerup>,
                                             active: seq<Powerup>, dur: map<Powerup, int>, q: Powerup)
    requires forall p :: p in ws ==> p in dur
    requires forall p :: p in active ==> p in dur
    requires q in active && dur[q] == q.startDuration
    ensures CollectFrom(ws, i, touching, active, dur).duration[q] == q.startDuration
    decreases |ws| - i
  {
    if i < |ws| {
      var p := ws[i];
      if p !in touching {
        CollectHoldsStart(ws, i + 1, touching, active, dur, q);
      } else if HasKind(active, p.kind) {
        CollectHoldsStart(RemoveFirst(ws, p), i + 1, touching, active, Restart(dur, active, p.kind), q);
      } else {
        CollectHoldsStart(RemoveFirst(ws, p), i + 1, touching, active + [p], dur, q);
      }
    }
  }

  /** The scan changes only the durations of power-ups that end up in the
      active list: a refresh restarts entries of the active list, which
      only grows. */
  lemma {:induction false} CollectKeepsOthers(ws: seq<Powerup>, i: nat, touching: set<Powerup>,
                                              active: seq<Powerup>, dur: map<Powerup, int>)
    requires forall p :: p in ws ==> p in dur
    requires forall p :: p in active ==> p in dur
    ensures var c := CollectFrom(ws, i, touching, active, dur);
      && (forall q :: q in active ==> q in c.active)
      && (forall q :: q in dur && q !in c.active ==> c.duration[q] == dur[q])
    decreases |ws| - i
  {
    if i < |ws| {
      var p := ws[i];
      if p !in touching {
        CollectKeepsOthers(ws, i + 1, touching, active, dur);
      } else if HasKind(active, p.kind) {
        CollectKeepsOthers(RemoveFirst(ws, p), i + 1, touching, active, Restart(dur, active, p.kind));
      } else {
        CollectKeepsOthers(RemoveFirst(ws, p), i + 1, touching, active + [p], dur);
      }
    }
  }

  /** A power-up neither active nor touched is not in the active list the
      scan leaves, and keeps its duration; every entry of that list was
      active or touched. */
  lemma CollectSpares(ws: seq<Powerup>, touching: set<Powerup>, active: seq<Powerup>, dur: map<Powerup, int>)
    requires forall p :: p in ws ==> p in dur
    requires forall p :: p in active ==> p in dur
    requires KindsDistinct(active)
    ensures var c := CollectFrom(ws, 0, touching, active, dur);
      && (forall q :: q in c.active ==> q in active || q in touching)
      && (forall q :: q in dur && q !in active && q !in touching ==> q !in c.active && c.duration[q] == dur[q])
  {
    var c := CollectFrom(ws, 0, touching, active, dur);
    CollectActive(ws, 0, touching, active, dur);
    CollectKeepsOthers(ws, 0, touching, active, dur);
    forall q | q in c.active
      ensures q in active || q in touching
    {
      var k :| 0 <= k < |c.active| && c.active[k] == q;
      if k < |active| {
        assert c.active[..|active|][k] == q;
      }
    }
  }

  /** When every power-up touched is of a kind already active, the scan
      only refreshes: the active list comes out as it went in. */
  lemma {:induction false} CollectKeepsActive(ws: seq<Powerup>, i: nat, touching: set<Powerup>,
                                              active: seq<Powerup>, dur: map<Powerup, int>)
    requires forall p :: p in ws ==> p in dur
    requires forall p :: p in active ==> p in dur
    requires forall p :: p in ws && p in touching ==> HasKind(active, p.kind)
    ensures CollectFrom(ws, i, touching, active, dur).active == active
    decreases |ws| - i
  {
    if i < |ws| {
      var p := ws[i];
      if p !in touching {
        CollectKeepsActive(ws, i + 1, touching, active, dur);
      } else {
        CollectKeepsActive(RemoveFirst(ws, p), i + 1, touching, active, Restart(dur, active, p.kind));
      }
    }
  }

  /** As written, the pickup loop skips the power-up after one it removes:
      with two touched power-ups side by side and none active, only the
      first is picked up this frame and the second stays in the falling
      list. */
  lemma CollectSkipsNext(a: Powerup, b: Powerup, dur: map<Powerup, int>)
    requires a != b && a in dur && b in dur
    ensures CollectFrom([a, b], 0, {a, b}, [], dur).active == [a]
    ensures CollectFrom([a, b], 0, {a, b}, [], dur).world == [b]
  {
    assert !HasKind([], a.kind);
    assert RemoveFirst([a, b], a) == [b] by {
      assert IndexOf([a, b], a) == 0;
    }
  }

  /** State of the countdown loop over the player's active power-ups: the
      active list, the remaining durations and the entries that expired. */
  datatype TickState = TickState(
    active: seq<Powerup>, duration: map<Powerup, int>, expired: seq<Powerup>)

  /** The countdown loop of the player's update, from index `i` on: each
      visited entry counts down by one and, when it reaches exactly zero,
      leaves the active list, which makes the scan skip the entry after
      it. */
  function TickFrom(ps: seq<Powerup>, i: nat, dur: map<Powerup, int>,
                    expired: seq<Powerup>): (t: TickState)
    requires forall p :: p in ps ==> p in dur
    ensures t.duration.Keys == dur.Keys
    ensures forall p :: p in t.active ==> p in ps
    decreases |ps| - i
  {
    if i >= |ps| then TickState(ps, dur, expired)
    else
      var p := ps[i];
      var d := dur[p] - 1;
      if d == 0 then TickFrom(RemoveFirst(ps, p), i + 1, dur[p := d], expired + [p])
      else TickFrom(ps, i + 1, dur[p := d], expired)
  }

  /** The countdown state after visiting index `i`. */
  function TickNext(ps: seq<Powerup>, i: nat, dur: map<Powerup, int>, expired: seq<Powerup>): (t: TickState)
    requires forall p :: p in ps ==> p in dur
    requires i < |ps|
    ensures t.duration.Keys == dur.Keys && |t.active| <= |ps|
    ensures forall p :: p in t.active ==> p in ps
  {
    var p := ps[i];
    var d := dur[p := dur[p] - 1];
    if d[p] == 0 then TickState(RemoveFirst(ps, p), d, expired + [p]) else TickState(ps, d, expired)
  }

  /** The countdown from index `i` is the countdown from `i + 1` after one
      step. */
  lemma TickStep(ps: seq<Powerup>, i: nat, dur: map<Powerup, int>, expired: seq<Powerup>)
    requires forall p :: p in ps ==> p in dur
    requires i < |ps|
    ensures var n := TickNext(ps, i, dur, expired);
      TickFrom(n.active, i + 1, n.duration, n.expired) == TickFrom(ps, i, dur, expired)
  {
  }

  /** An active power-up leaves the list only by expiring, and an expired
      one has a remaining duration of exactly zero. */
  lemma {:induction false} TickFacts(ps: seq<Powerup>, i: nat, dur: map<Powerup, int>,
                                     expired: seq<Powerup>)
    requires KindsDistinct(ps)
    requires forall p :: p in ps ==> p in dur
    requires forall p :: p in expired ==> p !in ps && p in dur && dur[p] == 0
    ensures var t := TickFrom(ps, i, dur, expired);
      && KindsDistinct(t.active)
      && |expired| <= |t.expired| && t.expired[..|expired|] == expired
      && (forall p :: p in ps && p !in t.active ==> p in t.expired)
      && (forall p :: p in t.expired ==> p in t.duration && t.duration[p] == 0)
    decreases |ps| - i
  {
    var t := TickFrom(ps, i, dur, expired);
    if i < |ps| {
      var p := ps[i];
      var d := dur[p] - 1;
      if d == 0 {
        KindsAfterRemove(ps, p);
        var r := RemoveFirst(ps, p);
        RemoveFirstCounts(ps, p);
        var e := expired + [p];
        assert t == TickFrom(r, i + 1, dur[p := d], e);
        TickFacts(r, i + 1, dur[p := d], e);
        assert t.expired[..|expired|] == expired by {
          assert t.expired[..|e|][..|expired|] == e[..|expired|];
        }
        forall q | q in ps && q !in t.active
          ensures q in t.expired
        {
          if q == p {
            assert t.expired[|expired|] == t.expired[..|e|][|expired|];
          }
        }
      } else {
        assert t == TickFrom(ps, i + 1, dur[p := d], expired);
        TickFacts(ps, i + 1, dur[p := d], expired);
      }
    }
  }

  /** As written, the countdown skips the entry after an expiring one: with
      two active power-ups, the first at its last tick, the second is not
      counted down this frame. */
  lemma TickSkipsNext(a: Powerup, b: Powerup, db: int)
    requires a != b
    ensures var t := TickFrom([a, b], 0, map[a := 1, b := db], []);
      && t.active == [b] && t.expired == [a]
      && b in t.duration && t.duration[b] == db
  {
    assert RemoveFirst([a, b], a) == [b] by {
      assert IndexOf([a, b], a) == 0;
    }
  }

  /** State of a projectile's hit scan over the enemy list: the list as it
      now stands, the enemies this projectile has hit (across frames), the
      kills of this scan and the projectile's own `die` calls in it. */
  datatype HitState = HitState(enemies: seq<Enemy>, hit: seq<Enemy>, killed: seq<Enemy>, dies: nat)

  /** The scene as a hit scan finds it: score, end checks, falling
      power-ups, the player's shots, the enemies this projectile had hit
      in earlier frames, the health and the rectangle of every listed enemy
      and the body of every power-up they carry. */
  datatype Tally = Tally(score: int, endChecks: nat, powerups: seq<Powerup>, shots: seq<Projectile>,
                         hit: seq<Enemy>, health: map<Enemy, int>, rects: map<Enemy, Rect>,
                         bodies: map<Powerup, Body>)

  /** The scan state once the enemy `e` has taken a hit: it leaves the list
      when the hit is `fatal` and is then counted as killed, it is
      remembered as hit, and the projectile dies unless it `stop`s here. */
  function AfterHit(st: HitState, e: Enemy, fatal: bool, stop: bool): (n: HitState)
    ensures |n.enemies| <= |st.enemies| && forall x :: x in n.enemies ==> x in st.enemies
  {
    HitState(if fatal then RemoveFirst(st.enemies, e) else st.enemies, st.hit + [e],
             if fatal then st.killed + [e] else st.killed, if stop then st.dies else st.dies + 1)
  }

  /** The collision loop of a projectile's update, from index `i` of the
      current list on. `hp` is each enemy's health when the scan starts:
      no enemy is hit twice by one projectile, so a touching enemy not yet
      hit still has it. Such an enemy takes `damage`, is remembered, and
      leaves the list when that leaves it no health; a ghost-bullet
      projectile then stops, any other one dies and scans on. */
  function HitScan(st: HitState, i: nat, touching: set<Enemy>, hp: map<Enemy, int>,
                   damage: int, ghostBullets: bool): HitState
    requires forall e :: e in st.enemies ==> e in hp
    decreases |st.enemies| - i
  {
    if i >= |st.enemies| then st
    else
      var e := st.enemies[i];
      if e in touching && e !in st.hit then
        var n := AfterHit(st, e, hp[e] - damage <= 0, ghostBullets);
        if ghostBullets then n else HitScan(n, i + 1, touching, hp, damage, ghostBullets)
      else HitScan(st, i + 1, touching, hp, damage, ghostBullets)
  }

  /** The scan only appends to what it remembers: the hit and killed lists
      keep their prefixes; a ghost-bullet projectile hits at most one enemy
      and never dies, any other one dies once per new hit. */
  lemma {:induction false} HitCounts(st: HitState, i: nat, touching: set<Enemy>, hp: map<Enemy, int>,
                                     damage: int, ghostBullets: bool)
    requires forall e :: e in st.enemies ==> e in hp
    ensures var r := HitScan(st, i, touching, hp, damage, ghostBullets);
      && st.hit <= r.hit && st.killed <= r.killed
      && (ghostBullets ==> |r.hit| <= |st.hit| + 1 && r.dies == st.dies)
      && (!ghostBullets ==> r.dies == st.dies + (|r.hit| - |st.hit|))
    decreases |st.enemies| - i
  {
    if i < |st.enemies| {
      var e := st.enemies[i];
      if e in touching && e !in st.hit {
        if !ghostBullets {
          var n := AfterHit(st, e, hp[e] - damage <= 0, false);
          HitCounts(n, i + 1, touching, hp, damage, ghostBullets);
        }
      } else {
        HitCounts(st, i + 1, touching, hp, damage, ghostBullets);
      }
    }
  }

  /** The hits of `rh` after its prefix `h` are enemies of `touching` and
      of `es`, none of them in `h`, and no two of them the same. */
  ghost predicate FreshHits(h: seq<Enemy>, rh: seq<Enemy>, touching: set<Enemy>, es: seq<Enemy>) {
    && (forall k :: |h| <= k < |rh| ==> rh[k] in touching && rh[k] in es && rh[k] !in h)
    && (forall j, k :: |h| <= j < k < |rh| ==> rh[j] != rh[k])
  }

  /** Every new hit is a touching enemy of the list that this projectile
      had not hit before, and no enemy is hit twice. */
  lemma {:induction false} HitTargets(st: HitState, i: nat, touching: set<Enemy>, hp: map<Enemy, int>,
                                      damage: int, ghostBullets: bool)
    requires forall e :: e in st.enemies ==> e in hp
    ensures FreshHits(st.hit, HitScan(st, i, touching, hp, damage, ghostBullets).hit, touching, st.enemies)
    decreases |st.enemies| - i
  {
    if i < |st.enemies| {
      var e := st.enemies[i];
      if e in touching && e !in st.hit {
        if !ghostBullets {
          HitTargets(AfterHit(st, e, hp[e] - damage <= 0, false), i + 1, touching, hp, damage, false);
          HitTargetsStep(st, i, touching, hp, damage);
        } else {
          HitStep(st, i, touching, hp, damage, true);
        }
      } else {
        HitSkip(st, i, touching, hp, damage, ghostBullets);
        HitTargets(st, i + 1, touching, hp, damage, ghostBullets);
      }
    }
  }

  /** The step of `HitTargets` at a touching enemy not hit before, for a
      projectile that scans on: the claim for the rest of the scan extends
      to this hit. */
  lemma HitTargetsStep(st: HitState, i: nat, touching: set<Enemy>, hp: map<Enemy, int>, damage: int)
    requires forall e :: e in st.enemies ==> e in hp
    requires i < |st.enemies| && st.enemies[i] in touching && st.enemies[i] !in st.hit
    requires var n := AfterHit(st, st.enemies[i], hp[st.enemies[i]] - damage <= 0, false);
      FreshHits(n.hit, HitScan(n, i + 1, touching, hp, damage, false).hit, touching, n.enemies)
    ensures FreshHits(st.hit, HitScan(st, i, touching, hp, damage, false).hit, touching, st.enemies)
  {
    var e := st.enemies[i];
    var n := AfterHit(st, e, hp[e] - damage <= 0, false);
    HitStep(st, i, touching, hp, damage, false);
    HitCounts(n, i + 1, touching, hp, damage, false);
    NewHitsExtend(st.hit, e, n.hit, HitScan(n, i + 1, touching, hp, damage, false).hit, touching,
                  st.enemies, n.enemies);
  }

  /** The new hits after `h` are `e` followed by new hits after `h + [e]`:
      if those are touching, listed, fresh and distinct, so are all of
      them. */
  lemma NewHitsExtend(h: seq<Enemy>, e: Enemy, hn: seq<Enemy>, rh: seq<Enemy>, touching: set<Enemy>,
                      es: seq<Enemy>, es': seq<Enemy>)
    requires e in touching && e in es && e !in h && hn == h + [e]
    requires forall x :: x in es' ==> x in es
    requires hn <= rh
    requires FreshHits(hn, rh, touching, es')
    ensures FreshHits(h, rh, touching, es)
  {
    assert rh[|h|] == e by {
      assert rh[..|hn|][|h|] == hn[|h|];
    }
    forall k | |h| < k < |rh|
      ensures rh[k] != e && rh[k] !in h
    {
      assert rh[k] !in hn;
    }
  }

  /** An enemy is newly killed exactly when it was newly hit and the damage
      left it no health. */
  lemma HitKills(st: HitState, i: nat, touching: set<Enemy>, hp: map<Enemy, int>,
                  damage: int, ghostBullets: bool)
    requires forall e :: e in st.enemies ==> e in hp
    requires forall e :: e in st.killed ==> e in st.hit
    ensures var r := HitScan(st, i, touching, hp, damage, ghostBullets);
      forall e :: e in hp ==>
        ((e in r.killed && e !in st.killed) <==> (e in r.hit && e !in st.hit && hp[e] - damage <= 0))
  {
    forall x | x in hp {
      KillAt(st, i, touching, hp, damage, ghostBullets, x);
    }
  }

  /** `HitKills` for one enemy `x`. */
  lemma {:induction false} KillAt(st: HitState, i: nat, touching: set<Enemy>, hp: map<Enemy, int>,
                                  damage: int, ghostBullets: bool, x: Enemy)
    requires forall e :: e in st.enemies ==> e in hp
    requires forall e :: e in st.killed ==> e in st.hit
    requires x in hp
    ensures var r := HitScan(st, i, touching, hp, damage, ghostBullets);
      (x in r.killed && x !in st.killed) <==> (x in r.hit && x !in st.hit && hp[x] - damage <= 0)
    decreases |st.enemies| - i
  {
    if i < |st.enemies| {
      var e := st.enemies[i];
      if e in touching && e !in st.hit && !ghostBullets {
        var n := AfterHit(st, e, hp[e] - damage <= 0, false);
        KillAt(n, i + 1, touching, hp, damage, false, x);
        KillStep(st, i, touching, hp, damage, x);
      } else if !(e in touching && e !in st.hit) {
        KillAt(st, i + 1, touching, hp, damage, ghostBullets, x);
      }
    }
  }

  /** One hit of the scan without ghost bullets, seen from enemy `x`: the
      struck enemy ends among those hit, and among those killed when the
      damage kills it; nothing changes for any other enemy. */
  lemma KillStep(st: HitState, i: nat, touching: set<Enemy>, hp: map<Enemy, int>, damage: int, x: Enemy)
    requires forall e :: e in st.enemies ==> e in hp
    requires i < |st.enemies| && st.enemies[i] in touching && st.enemies[i] !in st.hit
    ensures var e := st.enemies[i];
      var n := AfterHit(st, e, hp[e] - damage <= 0, false);
      var r := HitScan(n, i + 1, touching, hp, damage, false);
      && (x in n.killed ==> x in r.killed)
      && (x == e ==> x in r.hit && x in n.hit && (hp[e] - damage <= 0 ==> x in n.killed))
      && (x != e ==> (x in n.killed <==> x in st.killed) && (x in n.hit <==> x in st.hit))
  {
    var e := st.enemies[i];
    var n := AfterHit(st, e, hp[e] - damage <= 0, false);
    var r := HitScan(n, i + 1, touching, hp, damage, false);
    KilledPrefix(n, i + 1, touching, hp, damage, false);
    if x == e {
      HitCounts(n, i + 1, touching, hp, damage, false);
      assert r.hit[..|n.hit|][|st.hit|] == e;
      if hp[e] - damage <= 0 {
        assert n.killed[|st.killed|] == e;
      }
    }
  }

  /** Everything killed before the scan is still listed as killed after it. */
  lemma KilledPrefix(st: HitState, i: nat, touching: set<Enemy>, hp: map<Enemy, int>,
                     damage: int, ghostBullets: bool)
    requires forall e :: e in st.enemies ==> e in hp
    ensures forall e :: e in st.killed ==> e in HitScan(st, i, touching, hp, damage, ghostBullets).killed
  {
    var r := HitScan(st, i, touching, hp, damage, ghostBullets);
    HitCounts(st, i, touching, hp, damage, ghostBullets);
    forall x | x in st.killed
      ensures x in r.killed
    {
      var k :| 0 <= k < |st.killed| && st.killed[k] == x;
      assert r.killed[..|st.killed|][k] == x;
    }
  }

  /** An ordinary projectile passes through: two touching enemies side by
      side, each surviving the hit, are both hit in one update; a
      ghost-bullet projectile stops at the first. */
  lemma PiercingVersusGhost(a: Enemy, b: Enemy, health: int, damage: int)
    requires a != b && health > damage
    ensures var hp := map[a := health, b := health];
      var st := HitState([a, b], [], [], 0);
      && HitScan(st, 0, {a, b}, hp, damage, false).hit == [a, b]
      && HitScan(st, 0, {a, b}, hp, damage, true).hit == [a]
  {
    var hp := map[a := health, b := health];
    var st := HitState([a, b], [], [], 0);
    assert st.enemies[0] == a && st.enemies[1] == b && a !in [];
    var n := AfterHit(st, a, false, false);
    assert [] + [a] == [a];
    assert HitScan(st, 0, {a, b}, hp, damage, false) == HitScan(n, 1, {a, b}, hp, damage, false);
    assert n.enemies[1] == b && b !in n.hit && n.hit + [b] == [a, b];
    var n2 := AfterHit(n, b, false, false);
    assert HitScan(n, 1, {a, b}, hp, damage, false) == HitScan(n2, 2, {a, b}, hp, damage, false);
  }

  /** One hit of the scan, unfolded: a ghost-bullet projectile ends the
      scan in the state after the hit, any other one goes on from there. */
  lemma HitStep(st: HitState, i: nat, touching: set<Enemy>, hp: map<Enemy, int>,
                damage: int, ghostBullets: bool)
    requires forall e :: e in st.enemies ==> e in hp
    requires i < |st.enemies| && st.enemies[i] in touching && st.enemies[i] !in st.hit
    ensures var n := AfterHit(st, st.enemies[i], hp[st.enemies[i]] - damage <= 0, ghostBullets);
      HitScan(st, i, touching, hp, damage, ghostBullets)
        == if ghostBullets then n else HitScan(n, i + 1, touching, hp, damage, ghostBullets)
  {
  }

  /** A non-touching or already hit enemy is passed over. */
  lemma HitSkip(st: HitState, i: nat, touching: set<Enemy>, hp: map<Enemy, int>,
                damage: int, ghostBullets: bool)
    requires forall e :: e in st.enemies ==> e in hp
    requires i < |st.enemies| && (st.enemies[i] !in touching || st.enemies[i] in st.hit)
    ensures HitScan(st, i, touching, hp, damage, ghostBullets) == HitScan(st, i + 1, touching, hp, damage, ghostBullets)
  {
  }

  /** The score the listed kills award. */
  function SumScores(ks: seq<Enemy>): int
    decreases |ks|
  {
    if ks == [] then 0 else SumScores(ks[..|ks| - 1]) + ks[|ks| - 1].scoreValue
  }

  /** The power-up a dying enemy drops into the falling list, if any. */
  function Drop(e: Enemy): seq<Powerup> {
    if e.powerup == null then [] else [e.powerup]
  }

  /** The power-ups the listed kills drop, in order. */
  function DropsOf(ks: seq<Enemy>): seq<Powerup>
    decreases |ks|
  {
    if ks == [] then [] else DropsOf(ks[..|ks| - 1]) + Drop(ks[|ks| - 1])
  }

  /** One more kill adds its score and its drop. */
  lemma KillAdds(ks: seq<Enemy>, e: Enemy)
    ensures SumScores(ks + [e]) == SumScores(ks) + e.scoreValue
    ensures DropsOf(ks + [e]) == DropsOf(ks) + Drop(e)
  {
    assert (ks + [e])[..|ks|] == ks;
  }

  /** The power-ups carried by the listed enemies. */
  ghost function Carried(es: seq<Enemy>): set<Powerup> {
    set e | e in es && e.powerup != null :: e.powerup
  }

  /** The body of each power-up carried by the listed enemies. */
  ghost function CarriedBodies(es: seq<Enemy>): (m: map<Powerup, Body>)
    reads Carried(es)
    ensures m.Keys == Carried(es)
  {
    map p | p in Carried(es) :: p.body
  }

  /** The body of each of the power-ups `ps`. */
  ghost function BodiesOf(ps: set<Powerup>): (m: map<Powerup, Body>)
    reads ps`body
    ensures m.Keys == ps
  {
    map p | p in ps :: p.body
  }

  /** Where a dying enemy with rectangle `r` moves the power-up it carries,
      whose body is `b`: by `DropOffset`, which centres it on the enemy. */
  function DropBody(r: Rect, b: Body): (d: Body)
    ensures d.rect.w == b.rect.w && d.rect.h == b.rect.h
  {
    var (x, y) := DropOffset(r, b.rect);
    b.MoveFloat(x, y)
  }

  /** The power-up bodies `bodies` once the enemies `ks`, standing at
      the rectangles `at`, have died in that order, each moving the
      power-up it carries as `DropBody` says. */
  function Landings(ks: seq<Enemy>, at: map<Enemy, Rect>, bodies: map<Powerup, Body>): (m: map<Powerup, Body>)
    ensures m.Keys == bodies.Keys
    decreases |ks|
  {
    if ks == [] then bodies
    else
      var m := Landings(ks[..|ks| - 1], at, bodies);
      var k := ks[|ks| - 1];
      if k.powerup != null && k.powerup in m && k in at then m[k.powerup := DropBody(at[k], m[k.powerup])] else m
  }

  /** One more death moves only the power-up that enemy carries. */
  lemma LandingsStep(ks: seq<Enemy>, at: map<Enemy, Rect>, bodies: map<Powerup, Body>, k: Enemy)
    ensures var m := Landings(ks, at, bodies);
      Landings(ks + [k], at, bodies) ==
        if k.powerup != null && k.powerup in m && k in at then m[k.powerup := DropBody(at[k], m[k.powerup])] else m
  {
    assert (ks + [k])[..|ks|] == ks;
  }

  /** The carried bodies `after` one more hit on `e`, given those
      `before` it: with `e` killed its power-up lands as one more step of
      `Landings`, otherwise nothing moves. */
  lemma LandingsAfterHit(ks: seq<Enemy>, e: Enemy, fatal: bool, at: map<Enemy, Rect>,
                         bodies: map<Powerup, Body>, before: map<Powerup, Body>, after: map<Powerup, Body>)
    requires before == Landings(ks, at, bodies) && after.Keys == before.Keys && e in at
    requires forall p :: p in after && p != e.powerup ==> after[p] == before[p]
    requires e.powerup != null && e.powerup in after ==>
      after[e.powerup] == if fatal then DropBody(at[e], before[e.powerup]) else before[e.powerup]
    ensures after == Landings(if fatal then ks + [e] else ks, at, bodies)
  {
    LandingsStep(ks, at, bodies, e);
  }

  /** A power-up none of the dead enemies carried stays where it was. */
  lemma {:induction false} LandingsKeep(ks: seq<Enemy>, at: map<Enemy, Rect>, bodies: map<Powerup, Body>, p: Powerup)
    requires p in bodies && forall k :: k in ks ==> k.powerup != p
    ensures Landings(ks, at, bodies)[p] == bodies[p]
    decreases |ks|
  {
    if ks != [] {
      assert forall k :: k in ks[..|ks| - 1] ==> k in ks;
      LandingsKeep(ks[..|ks| - 1], at, bodies, p);
    }
  }

  /** A power-up exactly one dead enemy carried lands where that enemy
      drops it. */
  lemma {:induction false} LandingsDrop(ks: seq<Enemy>, at: map<Enemy, Rect>, bodies: map<Powerup, Body>, j: nat)
    requires j < |ks| && ks[j] in at && ks[j].powerup != null && ks[j].powerup in bodies
    requires forall i :: 0 <= i < |ks| && i != j ==> ks[i].powerup != ks[j].powerup
    ensures Landings(ks, at, bodies)[ks[j].powerup] == DropBody(at[ks[j]], bodies[ks[j].powerup])
    decreases |ks|
  {
    var init := ks[..|ks| - 1];
    if j == |ks| - 1 {
      forall k | k in init
        ensures k.powerup != ks[j].powerup
      {
        var i :| 0 <= i < |init| && init[i] == k;
        assert ks[i] == k;
      }
      LandingsKeep(init, at, bodies, ks[j].powerup);
    } else {
      assert init[j] == ks[j];
      forall i | 0 <= i < |init| && i != j
        ensures init[i].powerup != init[j].powerup
      {
        assert init[i] == ks[i];
      }
      LandingsDrop(init, at, bodies, j);
    }
  }

  /** The rectangle of each listed enemy. */
  ghost function Rects(es: seq<Enemy>): (r: map<Enemy, Rect>)
    reads (set e | e in es)`body
    ensures r.Keys == set e | e in es
  {
    map e | e in es :: e.body.rect
  }

  ghost function Health(es: seq<Enemy>): (r: map<Enemy, int>)
    reads (set e | e in es)`healthPoints
    ensures r.Keys == set e | e in es
  {
    map e | e in es :: e.healthPoints
  }

  ghost function TouchingEnemies(es: seq<Enemy>, r: Rect): set<Enemy>
    reads (set e | e in es)`body
  {
    set e | e in es && r.Collides(e.body.rect)
  }

  ghost function TouchingPowerups(ps: seq<Powerup>, r: Rect): set<Powerup>
    reads set p | p in ps
  {
    set p | p in ps && r.Collides(p.body.rect)
  }

  ghost function Durations(ps: seq<Powerup>): (r: map<Powerup, int>)
    reads set p | p in ps
    ensures r.Keys == set p | p in ps
  {
    map p | p in ps :: p.duration
  }

  /** A shot of the given size launched from a muzzle point: centred on the
      muzzle's x (the float offset truncated), top edge at the muzzle's y. */
  function Launched(size: Size, muzzleX: real, muzzleY: int): (b: Body)
    ensures Abs(b.rect.x as real + size.w as real / 2.0 - muzzleX) < 1.0
    ensures b.rect.y == muzzleY && b.rect.w == size.w && b.rect.h == size.h
    ensures b.dx == 0.0 && b.dy == 0.0
  {
    Body(Placed(size).rect.Move(Trunc(muzzleX - size.w as real / 2.0), muzzleY), 0.0, 0.0)
  }

  // ---------------------------------------------------------------------
  // Projectiles
  // ---------------------------------------------------------------------

  /** A shot of the player's ship. */
  class Projectile {
    const shooter: Player
    const travelSpeed: int
    const damage: int
    var body: Body
    var enemiesAlreadyHit: seq<Enemy>

    /** Create a shot at the muzzle and join the scene's list. */
    constructor (scene: Scene, size: Size, muzzleX: real, muzzleY: int, travelSpeed: int, damage: int)
      requires scene.player != null
      modifies scene`playerProjectiles
      ensures shooter == scene.player
      ensures this.travelSpeed == travelSpeed && this.damage == damage
      ensures body == Launched(size, muzzleX, muzzleY)
      ensures enemiesAlreadyHit == []
      ensures scene.playerProjectiles == old(scene.playerProjectiles) + [this]
    {
      body := Launched(size, muzzleX, muzzleY);
      shooter := scene.player;
      this.travelSpeed := travelSpeed;
      this.damage := damage;
      enemiesAlreadyHit := [];
      new;
      scene.playerProjectiles := scene.playerProjectiles + [this];
    }

    /** Leave the scene's list, unless the scene is no longer active. */
    method Die(scene: Scene)
      modifies scene`playerProjectiles
      ensures scene.playerProjectiles ==
        if scene.isActive then RemoveFirst(old(scene.playerProjectiles), this)
        else old(scene.playerProjectiles)
    {
      if !scene.isActive {
        return;
      }
      scene.playerProjectiles := RemoveFirstIn(scene.playerProjectiles, this);
    }

    /** One frame: fly up by `travelSpeed`; above the window, die;
        otherwise run the hit scan over the enemy list. */
    method Update(scene: Scene)
      modifies this`body, this`enemiesAlreadyHit
      modifies scene`playerProjectiles, scene`score, scene`powerups, scene`enemies, scene`endChecks
      modifies scene.enemies`healthPoints, Carried(scene.enemies)`body
      ensures !scene.isActive ==>
        && body == old(body) && enemiesAlreadyHit == old(enemiesAlreadyHit)
        && scene.playerProjectiles == old(scene.playerProjectiles)
        && scene.enemies == old(scene.enemies) && scene.score == old(scene.score)
        && scene.powerups == old(scene.powerups) && scene.endChecks == old(scene.endChecks)
        && (forall e :: e in old(scene.enemies) ==> e.healthPoints == old(e.healthPoints))
        && BodiesOf(old(Carried(scene.enemies))) == old(CarriedBodies(scene.enemies))
      ensures scene.isActive ==>
        var b := old(body).MoveFloat(0.0, -(travelSpeed as real));
        && body == b
        && (b.rect.y < -(b.rect.h as int) ==>
              && scene.playerProjectiles == RemoveFirst(old(scene.playerProjectiles), this)
              && enemiesAlreadyHit == old(enemiesAlreadyHit)
              && scene.enemies == old(scene.enemies) && scene.score == old(scene.score)
              && scene.powerups == old(scene.powerups) && scene.endChecks == old(scene.endChecks)
              && (forall e :: e in old(scene.enemies) ==> e.healthPoints == old(e.healthPoints))
              && BodiesOf(old(Carried(scene.enemies))) == old(CarriedBodies(scene.enemies)))
        && (b.rect.y >= -(b.rect.h as int) ==>
              var r := old(HitScan(HitState(scene.enemies, enemiesAlreadyHit, [], 0), 0,
                                   TouchingEnemies(scene.enemies, b.rect), Health(scene.enemies),
                                   damage, HasKind(shooter.activePowerups, GhostBullets)));
              && scene.enemies == r.enemies
              && enemiesAlreadyHit == r.hit
              && (forall e :: e in old(scene.enemies) ==>
                    e.healthPoints == old(e.healthPoints) - if e in r.hit && e !in old(enemiesAlreadyHit) then damage else 0)
              && scene.score == old(scene.score) + SumScores(r.killed)
              && scene.endChecks == old(scene.endChecks) + |r.killed|
              && scene.powerups == old(scene.powerups) + DropsOf(r.killed)
              && BodiesOf(old(Carried(scene.enemies))) ==
                   Landings(r.killed, old(Rects(scene.enemies)), old(CarriedBodies(scene.enemies)))
              && scene.playerProjectiles == RemoveTimes(old(scene.playerProjectiles), this, r.dies))
    {
      if !scene.isActive {
        return;
      }
      ghost var carried := Carried(scene.enemies);
      ghost var rects := Rects(scene.enemies);
      ghost var bodies := CarriedBodies(scene.enemies);
      ghost var touching := TouchingEnemies(scene.enemies, body.MoveFloat(0.0, -(travelSpeed as real)).rect);
      ghost var hp := Health(scene.enemies);
      ghost var ghostBullets := HasKind(shooter.activePowerups, GhostBullets);
      ghost var r := HitScan(HitState(scene.enemies, enemiesAlreadyHit, [], 0), 0, touching, hp, damage, ghostBullets);
      body := body.MoveFloat(0.0, -(travelSpeed as real));
      if body.rect.y < -(body.rect.h as int) {
        Die(scene);
        return;
      }
      assert Rects(scene.enemies) == rects && CarriedBodies(scene.enemies) == bodies;
      assert TouchingEnemies(scene.enemies, body.rect) == touching && Health(scene.enemies) == hp;
      Scan(scene);
      assert BodiesOf(carried) == Landings(r.killed, rects, bodies);
    }

    /** The collision loop of the update, proved against `HitScan`. */
    method Scan(scene: Scene)
      requires scene.isActive
      modifies this`enemiesAlreadyHit
      modifies scene`playerProjectiles, scene`score, scene`powerups, scene`enemies, scene`endChecks
      modifies scene.enemies`healthPoints, Carried(scene.enemies)`body
      ensures var r := old(HitScan(HitState(scene.enemies, enemiesAlreadyHit, [], 0), 0,
                                   TouchingEnemies(scene.enemies, body.rect), Health(scene.enemies),
                                   damage, HasKind(shooter.activePowerups, GhostBullets)));
        var start := old(Tally(scene.score, scene.endChecks, scene.powerups, scene.playerProjectiles,
                               enemiesAlreadyHit, Health(scene.enemies), Rects(scene.enemies), CarriedBodies(scene.enemies)));
        Mirrors(scene, r, start) && Lands(r, start)
    {
      ghost var e0 := scene.enemies;
      ghost var touching := TouchingEnemies(scene.enemies, body.rect);
      ghost var ghostBullets := HasKind(shooter.activePowerups, GhostBullets);
      ghost var start := Tally(scene.score, scene.endChecks, scene.powerups, scene.playerProjectiles,
                               enemiesAlreadyHit, Health(scene.enemies), Rects(scene.enemies), CarriedBodies(scene.enemies));
      ghost var st := HitState(scene.enemies, enemiesAlreadyHit, [], 0);
      ScanStarts(scene);
      Sweep(scene, st, start, e0, touching, ghostBullets);
    }

    /** The loop itself, from the scan state `st0` the scene mirrors. */
    method Sweep(scene: Scene, ghost st0: HitState, ghost start: Tally, ghost e0: seq<Enemy>,
                 ghost touching: set<Enemy>, ghost ghostBullets: bool)
      requires scene.isActive && Mirrors(scene, st0, start) && Within(st0, e0, touching, start)
      requires Standing(e0, start)
      requires Lands(st0, start)
      requires ghostBullets == HasKind(shooter.activePowerups, GhostBullets)
      modifies this`enemiesAlreadyHit
      modifies scene`playerProjectiles, scene`score, scene`powerups, scene`enemies, scene`endChecks
      modifies start.health.Keys`healthPoints, start.bodies.Keys`body
      ensures Mirrors(scene, HitScan(st0, 0, touching, start.health, damage, ghostBullets), start)
      ensures Lands(HitScan(st0, 0, touching, start.health, damage, ghostBullets), start)
    {
      ghost var st := st0;
      ghost var goal := HitScan(st, 0, touching, start.health, damage, ghostBullets);
      var i, stop := 0, false;
      while i < |scene.enemies| && !stop
        invariant Mirrors(scene, st, start) && Lands(st, start)
        invariant Within(st, e0, touching, start)
        invariant if stop then st == goal else HitScan(st, i, touching, start.health, damage, ghostBullets) == goal
        decreases |scene.enemies| - i, if stop then 0 else 1
      {
        assert st.enemies[i] in e0;
        ghost var prev := st;
        stop, st := Visit(scene, i, st, start, e0, touching, ghostBullets);
        WithinShrinks(prev, st, e0, touching, start);
        if !stop {
          i := i + 1;
        }
      }
      assert st == goal;
    }

    /** Where the scan begins, the scene mirrors the empty scan state and
        every listed enemy is within it. */
    lemma ScanStarts(scene: Scene)
      ensures var start := Tally(scene.score, scene.endChecks, scene.powerups, scene.playerProjectiles,
                                 enemiesAlreadyHit, Health(scene.enemies), Rects(scene.enemies), CarriedBodies(scene.enemies));
        var st := HitState(scene.enemies, enemiesAlreadyHit, [], 0);
        && Mirrors(scene, st, start) && Lands(st, start)
        && Within(st, scene.enemies, TouchingEnemies(scene.enemies, body.rect), start)
        && Standing(scene.enemies, start)
    {
    }

    /** The body of the collision loop at index `i`: a touching enemy not
        hit before takes the hit. Returns whether the scan stops here, and
        the scan state afterwards. */
    method Visit(scene: Scene, i: nat, ghost st: HitState, ghost start: Tally, ghost e0: seq<Enemy>,
                 ghost touching: set<Enemy>, ghost ghostBullets: bool) returns (stop: bool, ghost next: HitState)
      requires scene.isActive && Mirrors(scene, st, start) && Within(st, e0, touching, start)
      requires i < |st.enemies| && ghostBullets == HasKind(shooter.activePowerups, GhostBullets)
      requires Lands(st, start) && Standing(e0, start)
      modifies this`enemiesAlreadyHit, start.health.Keys`healthPoints, start.bodies.Keys`body
      modifies scene`playerProjectiles, scene`score, scene`powerups, scene`enemies, scene`endChecks
      ensures Mirrors(scene, next, start) && Lands(next, start)
      ensures |next.enemies| <= |st.enemies| && forall x :: x in next.enemies ==> x in st.enemies
      ensures var r := HitScan(st, i, touching, start.health, damage, ghostBullets);
        if stop then next == r else HitScan(next, i + 1, touching, start.health, damage, ghostBullets) == r
    {
      var e := scene.enemies[i];
      assert e in e0;
      if body.rect.Collides(e.body.rect) && e !in enemiesAlreadyHit {
        HitStep(st, i, touching, start.health, damage, ghostBullets);
        stop, next := Take(scene, i, st, start, ghostBullets);
      } else {
        HitSkip(st, i, touching, start.health, damage, ghostBullets);
        stop, next := false, st;
      }
    }

    /** The step of `Visit` at an enemy this projectile touches and has
        not hit before: the hit of `Strike`, as a step of the scan state. */
    method Take(scene: Scene, i: nat, ghost st: HitState, ghost start: Tally, ghost ghostBullets: bool)
      returns (stop: bool, ghost next: HitState)
      requires scene.isActive && Mirrors(scene, st, start) && Lands(st, start)
      requires i < |st.enemies| && ghostBullets == HasKind(shooter.activePowerups, GhostBullets)
      requires st.enemies[i] in start.health && st.enemies[i] !in enemiesAlreadyHit
      requires st.enemies[i] in start.rects && st.enemies[i].body.rect == start.rects[st.enemies[i]]
      modifies this`enemiesAlreadyHit, {st.enemies[i]}`healthPoints
      modifies scene`playerProjectiles, scene`score, scene`powerups, scene`enemies, scene`endChecks
      modifies (if st.enemies[i].powerup != null then {st.enemies[i].powerup} else {})`body
      ensures stop == ghostBullets
      ensures next == AfterHit(st, st.enemies[i], start.health[st.enemies[i]] - damage <= 0, ghostBullets)
      ensures Mirrors(scene, next, start) && Lands(next, start)
    {
      var e := scene.enemies[i];
      next := AfterHit(st, e, start.health[e] - damage <= 0, ghostBullets);
      stop := Strike(e, scene, st, start);
    }

    /** A scan state that keeps only enemies of `st` stays within `e0`. */
    lemma WithinShrinks(st: HitState, next: HitState, e0: seq<Enemy>, touching: set<Enemy>, start: Tally)
      requires Within(st, e0, touching, start)
      requires forall x :: x in next.enemies ==> x in st.enemies
      ensures Within(next, e0, touching, start)
    {
    }

    /** The scan state `st` covers only enemies of the list `e0` the scan
        started from, each of which has a starting health and rectangle in
        `start`, and `touching` holds exactly those of them whose starting
        rectangle this projectile overlaps. */
    ghost predicate Within(st: HitState, e0: seq<Enemy>, touching: set<Enemy>, start: Tally)
      reads this`body
    {
      && (forall e :: e in st.enemies ==> e in e0)
      && (forall e :: e in e0 ==> e in start.health && e in start.rects)
      && (forall e :: e in e0 ==> (e in touching <==> body.rect.Collides(start.rects[e])))
    }

    /** Every enemy of `e0` still stands at its starting rectangle. */
    ghost predicate Standing(e0: seq<Enemy>, start: Tally)
      reads (set e | e in e0)`body
    {
      forall e :: e in e0 ==> e in start.rects && e.body.rect == start.rects[e]
    }

    /** The scene as the hit scan state `st` describes it, from the scene
        `start` the scan found: an enemy hit in this scan has lost `damage`
        health points, any other one none. */
    ghost predicate Mirrors(scene: Scene, st: HitState, start: Tally)
      reads this, scene, start.health.Keys
    {
      && scene.enemies == st.enemies && enemiesAlreadyHit == st.hit && start.hit <= st.hit
      && (forall e :: e in start.health ==>
            e.healthPoints == start.health[e] - if e in st.hit && e !in start.hit then damage else 0)
      && scene.score == start.score + SumScores(st.killed)
      && scene.endChecks == start.endChecks + |st.killed|
      && scene.powerups == start.powerups + DropsOf(st.killed)
      && scene.playerProjectiles == RemoveTimes(start.shots, this, st.dies)
    }

    /** The power-ups the enemies of `start` carry: each has a body in
        `start`, and now lies where the kills of `st` have dropped it. */
    ghost predicate Lands(st: HitState, start: Tally)
      reads start.bodies.Keys`body
    {
      && (forall e :: e in start.health && e.powerup != null ==> e.powerup in start.bodies)
      && BodiesOf(start.bodies.Keys) == Landings(st.killed, start.rects, start.bodies)
    }

    /** One hit of the scan: damage the enemy and remember it; unless a
        ghost-bullet power-up is active, die. Returns whether the scan
        stops here. */
    method Strike(e: Enemy, scene: Scene, ghost st: HitState, ghost start: Tally) returns (stop: bool)
      requires scene.isActive && e in start.health && e !in st.hit && Mirrors(scene, st, start) && Lands(st, start)
      requires e in start.rects && e.body.rect == start.rects[e]
      modifies this`enemiesAlreadyHit, e`healthPoints
      modifies scene`playerProjectiles, scene`score, scene`powerups, scene`enemies, scene`endChecks
      modifies (if e.powerup != null then {e.powerup} else {})`body
      ensures stop == HasKind(shooter.activePowerups, GhostBullets)
      ensures Mirrors(scene, AfterHit(st, e, start.health[e] - damage <= 0, stop), start)
      ensures Lands(AfterHit(st, e, start.health[e] - damage <= 0, stop), start)
    {
      ghost var n := AfterHit(st, e, start.health[e] - damage <= 0, true);
      Wound(e, scene, st, start);
      stop := Retire(scene, n, start);
      assert n.(dies := if stop then n.dies else n.dies + 1) == AfterHit(st, e, start.health[e] - damage <= 0, stop);
    }

    /** After a hit: a projectile whose shooter holds a ghost-bullet
        power-up stops the scan; any other one dies, counted in `dies`. */
    method Retire(scene: Scene, ghost st: HitState, ghost start: Tally) returns (stop: bool)
      requires scene.isActive && Mirrors(scene, st, start) && Lands(st, start)
      modifies scene`playerProjectiles
      ensures stop == HasKind(shooter.activePowerups, GhostBullets)
      ensures Mirrors(scene, st.(dies := if stop then st.dies else st.dies + 1), start) && Lands(st, start)
    {
      stop := shooter.Holds(GhostBullets);
      if !stop {
        Die(scene);
      }
    }

    /** The enemy takes the hit and is remembered; a power-up it carries
        lands where the kills say. */
    method Wound(e: Enemy, scene: Scene, ghost st: HitState, ghost start: Tally)
      requires e in start.health && e !in st.hit && Mirrors(scene, st, start) && Lands(st, start)
      requires e in start.rects && e.body.rect == start.rects[e]
      modifies this`enemiesAlreadyHit, e`healthPoints
      modifies scene`score, scene`powerups, scene`enemies, scene`endChecks
      modifies (if e.powerup != null then {e.powerup} else {})`body
      ensures Mirrors(scene, AfterHit(st, e, start.health[e] - damage <= 0, true), start)
      ensures Lands(AfterHit(st, e, start.health[e] - damage <= 0, true), start)
    {
      ghost var before := BodiesOf(start.bodies.Keys);
      Hurt(e, scene, st, start);
      ghost var after := BodiesOf(start.bodies.Keys);
      LandingsAfterHit(st.killed, e, start.health[e] - damage <= 0, start.rects, start.bodies, before, after);
    }

    /** The hit itself: the enemy takes `damage` and is remembered. */
    method Hurt(e: Enemy, scene: Scene, ghost st: HitState, ghost start: Tally)
      requires e in start.health && e !in st.hit && Mirrors(scene, st, start)
      modifies this`enemiesAlreadyHit, e`healthPoints
      modifies scene`score, scene`powerups, scene`enemies, scene`endChecks
      modifies (if e.powerup != null then {e.powerup} else {})`body
      ensures Mirrors(scene, AfterHit(st, e, start.health[e] - damage <= 0, true), start)
      ensures e.powerup != null ==>
        e.powerup.body == if start.health[e] - damage <= 0 then DropBody(e.body.rect, old(e.powerup.body))
                          else old(e.powerup.body)
    {
      ghost var fatal := start.health[e] - damage <= 0;
      ghost var dropped := DropsOf(st.killed);
      KillAdds(st.killed, e);
      assert e.healthPoints == start.health[e];
      e.Damage(damage, scene);
      enemiesAlreadyHit := enemiesAlreadyHit + [e];
      if fatal {
        assert scene.powerups == start.powerups + (dropped + Drop(e));
      }
    }
  }

  /** A shot of the boss. */
  class BossProjectile {
    const travel: (real, real)
    const travelSpeed: int
    var body: Body

    /** Create a shot at the muzzle and join the scene's list. */
    constructor (scene: Scene, size: Size, muzzleX: real, muzzleY: int, travel: (real, real), travelSpeed: int)
      modifies scene`bossProjectiles
      ensures this.travel == travel && this.travelSpeed == travelSpeed
      ensures body == Launched(size, muzzleX, muzzleY)
      ensures scene.bossProjectiles == old(scene.bossProjectiles) + [this]
    {
      this.travel := travel;
      this.travelSpeed := travelSpeed;
      body := Launched(size, muzzleX, muzzleY);
      new;
      scene.bossProjectiles := scene.bossProjectiles + [this];
    }

    /** One frame: fly along the travel vector scaled by the speed; below
        the window, die. */
    method Update(scene: Scene)
      modifies this`body, scene`bossProjectiles
      ensures !scene.isActive ==> body == old(body) && scene.bossProjectiles == old(scene.bossProjectiles)
      ensures scene.isActive ==>
        && body == old(body).MoveFloat(travel.0 * travelSpeed as real, travel.1 * travelSpeed as real)
        && scene.bossProjectiles ==
             (if body.rect.y > ScreenHeight then RemoveFirst(old(scene.bossProjectiles), this)
              else old(scene.bossProjectiles))
    {
      if !scene.isActive {
        return;
      }
      body := body.MoveFloat(travel.0 * travelSpeed as real, travel.1 * travelSpeed as real);
      if body.rect.y > ScreenHeight {
        Die(scene);
        return;
      }
    }

    /** Leave the scene's list. */
    method Die(scene: Scene)
      modifies scene`bossProjectiles
      ensures scene.bossProjectiles == RemoveFirst(old(scene.bossProjectiles), this)
    {
      scene.bossProjectiles := RemoveFirstIn(scene.bossProjectiles, this);
    }
  }

  // ---------------------------------------------------------------------
  // The player's ship
  // ---------------------------------------------------------------------

  /** Whether the rectangle touches an enemy ship or a boss shot. */
  ghost predicate Threatens(scene: Scene, r: Rect)
    reads scene, set e | e in scene.enemies, set q | q in scene.bossProjectiles
  {
    || (exists e :: e in scene.enemies && r.Collides(e.body.rect))
    || (exists q :: q in scene.bossProjectiles && r.Collides(q.body.rect))
  }

  class Player {
    const width: int := 60
    const height: int := 65
    const minHeight: int := 0
    var body: Body
    var loadout: Loadout
    var speedX: real
    var speedY: real
    var isShooting: bool
    var shootingCooldown: int
    var activePowerups: seq<Powerup>

    /** The ship's standing invariant: a non-negative cooldown, at most one
        active power-up per kind, each attached to this ship, and stats that
        are exactly the base stats boosted by the active kinds. */
    ghost predicate Valid()
      reads this, set p | p in activePowerups
    {
      && shootingCooldown >= 0
      && KindsDistinct(activePowerups)
      && loadout == Equip(Kinds(activePowerups))
      && (forall p :: p in activePowerups ==> p.isPickedup && p.player == this)
    }

    /** The power-ups an update of this ship may touch. */
    ghost function Reach(scene: Scene): set<Powerup>
      reads this, scene
    {
      (set p | p in scene.powerups) + (set p | p in activePowerups)
    }

    /** A ship centred horizontally, 10 pixels above the bottom edge, with
        the base stats, at rest and with no power-up. */
    constructor (images: Sprite -> Size)
      ensures body == Body(Rect(370, 565, images(PlayerShip).w, images(PlayerShip).h), 0.0, 0.0)
      ensures body.rect.x + width / 2 == ScreenWidth / 2
      ensures body.rect.y + height + 10 == ScreenHeight
      ensures loadout == Equip({})
      ensures speedX == 0.0 && speedY == 0.0 && !isShooting && shootingCooldown == 0
      ensures activePowerups == []
      ensures Valid()
    {
      var b := Placed(images(PlayerShip));
      body := Body(b.rect.Move(Trunc((ScreenWidth - 60) as real / 2.0), ScreenHeight - 65 - 10), 0.0, 0.0);
      loadout := Equip({});
      speedX := 0.0;
      speedY := 0.0;
      isShooting := false;
      shootingCooldown := 0;
      activePowerups := [];
    }

    /** Damp both speed components and clamp them to the current maximum. */
    method UpdateSpeed()
      requires loadout.maxSpeed >= 0
      modifies this`speedX, this`speedY
      ensures speedX == Damped(old(speedX), loadout) && speedY == Damped(old(speedY), loadout)
    {
      speedX := Damp(speedX, loadout);
      speedY := Damp(speedY, loadout);
    }

    /** One speed component of `updateSpeed`: scale by the damping factor,
        then cut back to the maximum speed if it overshoots either way. */
    static method Damp(v: real, l: Loadout) returns (r: real)
      requires l.maxSpeed >= 0
      ensures r == Damped(v, l)
    {
      r := v * l.speedDampingFactor;
      if r > l.maxSpeed as real {
        r := l.maxSpeed as real;
      } else if r < -l.maxSpeed as real {
        r := -l.maxSpeed as real;
      }
    }

    /** Move by a fractional offset, then push the ship back inside the
        window horizontally and between `minHeight` and the bottom edge
        vertically, stopping it on the axis where it was pushed. */
    method Move(x: real, y: real)
      modifies this`body, this`speedX, this`speedY
      ensures var m := old(body).MoveFloat(x, y);
        var outX := m.rect.x < 0 || m.rect.x + width > ScreenWidth;
        var outY := m.rect.y + height < minHeight || m.rect.y + height > ScreenHeight;
        && body == m.At(
             if m.rect.x < 0 then 0 else if outX then ScreenWidth - width else m.rect.x,
             if m.rect.y + height < minHeight then minHeight - height
             else if outY then ScreenHeight - height else m.rect.y)
        && speedX == (if outX then 0.0 else old(speedX))
        && speedY == (if outY then 0.0 else old(speedY))
      ensures 0 <= body.rect.x <= ScreenWidth - width
      ensures minHeight <= body.rect.y + height <= ScreenHeight
    {
      body := body.MoveFloat(x, y);
      if body.rect.x < 0 {
        body := body.At(0, body.rect.y);
        speedX := 0.0;
      } else if body.rect.x + width > ScreenWidth {
        body := body.At(ScreenWidth - width, body.rect.y);
        speedX := 0.0;
      }
      if body.rect.y + height < minHeight {
        body := body.At(body.rect.x, minHeight - height);
        speedY := 0.0;
      } else if body.rect.y + height > ScreenHeight {
        body := body.At(body.rect.x, ScreenHeight - height);
        speedY := 0.0;
      }
    }

    /** Fire one shot from the middle of the ship's top edge with the
        current projectile speed and damage. */
    method Shoot(scene: Scene)
      requires scene.player == this
      modifies scene`playerProjectiles
      ensures |scene.playerProjectiles| == |old(scene.playerProjectiles)| + 1
      ensures scene.playerProjectiles[..|old(scene.playerProjectiles)|] == old(scene.playerProjectiles)
      ensures var p := scene.playerProjectiles[|old(scene.playerProjectiles)|];
        && fresh(p) && p.shooter == this
        && p.travelSpeed == loadout.projectileSpeed && p.damage == loadout.projectileDamage
        && p.body == Launched(scene.images(PlayerShot), body.rect.x as real + width as real / 2.0, body.rect.y)
        && p.enemiesAlreadyHit == []
    {
      var p := new Projectile(scene, scene.images(PlayerShot), body.rect.x as real + width as real / 2.0,
                              body.rect.y, loadout.projectileSpeed, loadout.projectileDamage);
    }

    /** The A/D/S/W keys held this frame accelerate the ship: left and
        right on the x axis, down and up on the y axis, each independently. */
    method HandleInput(left: bool, right: bool, down: bool, up: bool)
      modifies this`speedX, this`speedY
      ensures speedX == old(speedX) - (if left then loadout.acceleration else 0.0)
                                    + (if right then loadout.acceleration else 0.0)
      ensures speedY == old(speedY) + (if down then loadout.acceleration else 0.0)
                                    - (if up then loadout.acceleration else 0.0)
    {
      if left {
        speedX := speedX - loadout.acceleration;
      }
      if right {
        speedX := speedX + loadout.acceleration;
      }
      if down {
        speedY := speedY + loadout.acceleration;
      }
      if up {
        speedY := speedY - loadout.acceleration;
      }
    }

    /** Game over: record the scene's score and ask for the end screen. */
    method Die(scene: Scene)
      modifies scene.game`endScore, scene.game`requests
      ensures scene.game.endScore == scene.score
      ensures scene.game.requests == old(scene.game.requests) + [LoadScene("endscreen")]
    {
      scene.game.endScore := scene.score;
      scene.game.requests := scene.game.requests + [LoadScene("endscreen")];
    }

    /** The two collision loops of the update: does the ship touch an enemy
        ship or a boss shot? */
    method Threatened(scene: Scene) returns (hit: bool)
      ensures hit == Threatens(scene, body.rect)
    {
      var i := 0;
      while i < |scene.enemies|
        invariant 0 <= i <= |scene.enemies|
        invariant forall k :: 0 <= k < i ==> !body.rect.Collides(scene.enemies[k].body.rect)
      {
        if body.rect.Collides(scene.enemies[i].body.rect) {
          return true;
        }
        i := i + 1;
      }
      i := 0;
      while i < |scene.bossProjectiles|
        invariant 0 <= i <= |scene.bossProjectiles|
        invariant forall k :: 0 <= k < i ==> !body.rect.Collides(scene.bossProjectiles[k].body.rect)
      {
        if body.rect.Collides(scene.bossProjectiles[i].body.rect) {
          return true;
        }
        i := i + 1;
      }
      return false;
    }

    /** Whether a power-up of kind `t` is active. */
    method Holds(t: PowerupType) returns (b: bool)
      ensures b == HasKind(activePowerups, t)
    {
      var i := 0;
      while i < |activePowerups|
        invariant 0 <= i <= |activePowerups|
        invariant !HasKind(activePowerups[..i], t)
      {
        if activePowerups[i].kind == t {
          return true;
        }
        assert activePowerups[..i + 1] == activePowerups[..i] + [activePowerups[i]];
        i := i + 1;
      }
      assert activePowerups[..i] == activePowerups;
      return false;
    }

    /** Restart the countdown of every active power-up of kind `t`, and say
        whether there was one. */
    method RefreshKind(t: PowerupType) returns (found: bool)
      modifies activePowerups`duration
      ensures found == HasKind(activePowerups, t)
      ensures forall p :: p in activePowerups ==>
        p.duration == if p.kind == t then p.startDuration else old(p.duration)
    {
      found := false;
      var i := 0;
      while i < |activePowerups|
        invariant 0 <= i <= |activePowerups|
        invariant found == HasKind(activePowerups[..i], t)
        invariant forall p :: p in activePowerups ==>
          p.duration == if p.kind == t && p in activePowerups[..i] then p.startDuration else old(p.duration)
      {
        var p := activePowerups[i];
        assert activePowerups[..i + 1] == activePowerups[..i] + [p];
        if p.kind == t {
          p.duration := p.startDuration;
          found := true;
        }
        i := i + 1;
      }
      assert activePowerups[..i] == activePowerups;
    }

    /** The falling power-ups the ship does not touch and that are not
        active: nothing in this frame's update may change them. */
    ghost function Idle(scene: Scene): set<Powerup>
      reads this, scene, set p | p in scene.powerups
    {
      set p | p in scene.powerups && p !in activePowerups && !body.rect.Collides(p.body.rect)
    }

    /** The pickup loop of the update, proved against `CollectFrom`; the
        power-ups it neither touches nor finds active come out unchanged. */
    method CollectPowerups(scene: Scene)
      requires scene.player == this && Valid()
      modifies this`activePowerups, this`loadout, scene`powerups
      modifies Reach(scene)`duration, Reach(scene)`isPickedup, Reach(scene)`player
      ensures Valid()
      ensures var c := old(CollectFrom(scene.powerups, 0, TouchingPowerups(scene.powerups, body.rect),
                                       activePowerups, Durations(scene.powerups + activePowerups)));
        && scene.powerups == c.world
        && activePowerups == c.active
        && (forall p :: p in old(Reach(scene)) ==> p in c.duration && p.duration == c.duration[p])
      ensures forall p :: p in activePowerups ==> p in old(Reach(scene))
      ensures forall p :: p in activePowerups ==> p in old(activePowerups) || p in old(TouchingPowerups(scene.powerups, body.rect))
      ensures forall p :: p in old(Idle(scene)) ==> unchanged(p)
    {
      ghost var touching := TouchingPowerups(scene.powerups, body.rect);
      ghost var active := activePowerups;
      ghost var dur := Durations(scene.powerups + activePowerups);
      ghost var idle := Idle(scene);
      assert forall p :: p in idle ==> p in dur && p !in active && p !in touching;
      CollectSpares(old(scene.powerups), touching, active, dur);
      ScanPowerups(scene);
    }

    /** The pickup loop itself. */
    method ScanPowerups(scene: Scene)
      requires scene.player == this && Valid()
      modifies this`activePowerups, this`loadout, scene`powerups
      modifies Reach(scene)`duration, Reach(scene)`isPickedup, Reach(scene)`player
      ensures Valid()
      ensures var c := old(CollectFrom(scene.powerups, 0, TouchingPowerups(scene.powerups, body.rect),
                                       activePowerups, Durations(scene.powerups + activePowerups)));
        && scene.powerups == c.world
        && activePowerups == c.active
        && (forall p :: p in old(Reach(scene)) ==> p in c.duration && p.duration == c.duration[p])
      ensures forall p :: p in activePowerups ==> p in old(Reach(scene))
      ensures forall q :: q in old(Reach(scene)) && q !in old(TouchingPowerups(scene.powerups, body.rect)) ==>
        q.isPickedup == old(q.isPickedup) && q.player == old(q.player)
    {
      ghost var ws0 := scene.powerups;
      ghost var touching := TouchingPowerups(scene.powerups, body.rect);
      ghost var reach := Reach(scene);
      ghost var c := CollectState(scene.powerups, activePowerups, Durations(scene.powerups + activePowerups));
      ghost var goal := CollectFrom(c.world, 0, touching, c.active, c.duration);
      var i := 0;
      while i < |scene.powerups|
        invariant Collecting(scene, c, ws0, reach)
        invariant Sees(ws0, touching)
        invariant CollectFrom(c.world, i, touching, c.active, c.duration) == goal
        invariant forall q :: q in reach && q !in touching ==>
          q.isPickedup == old(q.isPickedup) && q.player == old(q.player)
        decreases |scene.powerups| - i
      {
        assert c.world[i] in ws0;
        c := Pick(scene, i, c, ws0, touching, reach);
        i := i + 1;
      }
    }

    /** The loop state of the pickup scan mirrors `c`: the falling and the
        active lists are `c`'s, every power-up within reach has `c`'s
        duration, and the ship is valid. */
    ghost predicate Collecting(scene: Scene, c: CollectState, ws0: seq<Powerup>, reach: set<Powerup>)
      reads this, scene, reach
    {
      && scene.player == this
      && scene.powerups == c.world && activePowerups == c.active
      && (forall p :: p in ws0 ==> p in reach)
      && (forall p :: p in c.world ==> p in ws0)
      && (forall p :: p in c.active ==> p in reach)
      && c.duration.Keys == reach
      && (forall p :: p in reach ==> p.duration == c.duration[p])
      && Valid()
    }

    /** `touching` is the set of power-ups of `ws0` the ship overlaps. */
    ghost predicate Sees(ws0: seq<Powerup>, touching: set<Powerup>)
      reads this`body, (set p | p in ws0)`body
    {
      forall p :: p in ws0 ==> (p in touching <==> body.rect.Collides(p.body.rect))
    }

    /** One step of the pickup scan: the power-up at index `i`. */
    method Pick(scene: Scene, i: nat, ghost c: CollectState, ghost ws0: seq<Powerup>,
                ghost touching: set<Powerup>, ghost reach: set<Powerup>) returns (ghost next: CollectState)
      requires Collecting(scene, c, ws0, reach) && i < |c.world|
      requires c.world[i] in touching <==> body.rect.Collides(c.world[i].body.rect)
      modifies this`activePowerups, this`loadout, scene`powerups
      modifies reach`duration, reach`isPickedup, reach`player
      ensures Collecting(scene, next, ws0, reach)
      ensures |next.world| <= |c.world|
      ensures CollectFrom(next.world, i + 1, touching, next.active, next.duration)
           == CollectFrom(c.world, i, touching, c.active, c.duration)
      ensures forall q :: q in reach && q !in touching ==>
        q.isPickedup == old(q.isPickedup) && q.player == old(q.player)
    {
      var p := scene.powerups[i];
      if body.rect.Collides(p.body.rect) {
        var found := RefreshKind(p.kind);
        ghost var d := if found then Restart(c.duration, c.active, p.kind) else c.duration;
        next := Settle(scene, p, found, c.(duration := d), ws0, reach);
      } else {
        next := c;
      }
    }

    /** The rest of a pickup, once the active entries of `p`'s kind are
        restarted: pick `p` up unless its kind was already active, then
        remove it from the falling list. */
    method Settle(scene: Scene, p: Powerup, found: bool, ghost c: CollectState,
                  ghost ws0: seq<Powerup>, ghost reach: set<Powerup>) returns (ghost next: CollectState)
      requires Collecting(scene, c, ws0, reach) && p in c.world
      requires found == HasKind(c.active, p.kind)
      modifies this`activePowerups, this`loadout, scene`powerups, p`isPickedup, p`player
      ensures next == CollectState(RemoveFirst(c.world, p), if found then c.active else c.active + [p], c.duration)
      ensures Collecting(scene, next, ws0, reach)
    {
      next := c;
      if !found {
        next := Adopt(scene, p, c, ws0, reach);
      }
      p.Die(scene, false);
      next := next.(world := scene.powerups);
    }

    /** `onPickup` of a power-up whose kind is not active keeps the ship
        valid: the new entry's kind is new, and boosting that kind gives
        the stats of the enlarged set of kinds. */
    method Adopt(scene: Scene, p: Powerup, ghost c: CollectState,
                 ghost ws0: seq<Powerup>, ghost reach: set<Powerup>) returns (ghost next: CollectState)
      requires Collecting(scene, c, ws0, reach) && p in c.world && !HasKind(c.active, p.kind)
      modifies this`activePowerups, this`loadout, p`isPickedup, p`player
      ensures next == c.(active := c.active + [p])
      ensures Collecting(scene, next, ws0, reach)
    {
      KindsAfterAppend(c.active, p);
      BoostRestoreEquip(Kinds(c.active), p.kind);
      p.OnPickup(scene);
      next := c.(active := activePowerups);
    }

    /** The countdown loop of the update, proved against `TickFrom`, given
        a map `dur` that agrees with the active power-ups' durations. */
    method UpdatePowerups(scene: Scene, ghost dur: map<Powerup, int>)
      requires Valid() && scene.isActive
      requires forall p :: p in activePowerups ==> p in dur && p.duration == dur[p]
      modifies this`activePowerups, this`loadout, scene`powerups
      modifies activePowerups`duration
      ensures Valid()
      ensures var t := TickFrom(old(activePowerups), 0, dur, []);
        && activePowerups == t.active
        && (forall p :: p in old(activePowerups) ==> p.duration == t.duration[p])
        && scene.powerups == old(scene.powerups)
    {
      ghost var a0 := activePowerups;
      ghost var t := TickState(activePowerups, dur, []);
      ghost var goal := TickFrom(a0, 0, dur, []);
      var i := 0;
      while i < |activePowerups|
        invariant Ticking(scene, t, a0, old(scene.powerups))
        invariant t.duration.Keys == dur.Keys
        invariant TickFrom(t.active, i, t.duration, t.expired) == goal
        decreases |activePowerups| - i
      {
        t := Count(scene, i, t, a0, old(scene.powerups));
        i := i + 1;
      }
    }

    /** The loop state of the countdown mirrors `t`: the active list is
        `t`'s and a sublist of `a0`, every entry of `a0` has `t`'s duration,
        the falling list is `ws`, and the ship is valid. */
    ghost predicate Ticking(scene: Scene, t: TickState, a0: seq<Powerup>, ws: seq<Powerup>)
      reads this, scene, set p | p in a0
    {
      && scene.isActive && scene.powerups == ws
      && activePowerups == t.active
      && (forall p :: p in t.active ==> p in a0)
      && (forall p :: p in a0 ==> p in t.duration && p.duration == t.duration[p])
      && Valid()
    }

    /** One step of the countdown: the active entry at index `i`. */
    method Count(scene: Scene, i: nat, ghost t: TickState, ghost a0: seq<Powerup>,
                 ghost ws: seq<Powerup>) returns (ghost next: TickState)
      requires Ticking(scene, t, a0, ws) && i < |t.active|
      modifies this`activePowerups, this`loadout, scene`powerups
      modifies {t.active[i]}`duration
      ensures Ticking(scene, next, a0, ws)
      ensures next.duration.Keys == t.duration.Keys
      ensures |next.active| <= |t.active|
      ensures TickFrom(next.active, i + 1, next.duration, next.expired)
           == TickFrom(t.active, i, t.duration, t.expired)
    {
      next := TickNext(t.active, i, t.duration, t.expired);
      TickStep(t.active, i, t.duration, t.expired);
      var p := activePowerups[i];
      Expire(p);
      p.Update(scene);
    }

    /** What expiry of the active entry `p` does to the invariant: with `p`
        removed and its kind restored, the stats still match the kinds. */
    lemma Expire(p: Powerup)
      requires Valid() && p in activePowerups
      ensures KindsDistinct(RemoveFirst(activePowerups, p))
      ensures Restore(loadout, p.kind) == Equip(Kinds(RemoveFirst(activePowerups, p)))
    {
      KindsAfterRemove(activePowerups, p);
      BoostRestoreEquip(Kinds(activePowerups), p.kind);
    }

    /** One frame of the ship: nothing while the scene is inactive; death on
        touching an enemy ship or a boss shot unless invincible; otherwise
        pickup, movement, shooting and the power-up countdown, in that
        order. */
    method Update(scene: Scene)
      requires scene.player == this && Valid()
      modifies this, scene`powerups, scene`playerProjectiles, scene.game`endScore, scene.game`requests
      modifies Reach(scene)`duration, Reach(scene)`isPickedup, Reach(scene)`player
      ensures Valid()
      ensures !scene.isActive ==>
        && unchanged(this) && scene.powerups == old(scene.powerups)
        && scene.playerProjectiles == old(scene.playerProjectiles)
        && unchanged(scene.game) && (forall p :: p in old(Reach(scene)) ==> unchanged(p))
      ensures scene.isActive && old(!loadout.invincibility && Threatens(scene, body.rect)) ==>
        && scene.game.endScore == scene.score
        && scene.game.requests == old(scene.game.requests) + [LoadScene("endscreen")]
        && unchanged(this) && scene.powerups == old(scene.powerups)
        && scene.playerProjectiles == old(scene.playerProjectiles)
        && (forall p :: p in old(Reach(scene)) ==> unchanged(p))
      ensures scene.isActive && !old(!loadout.invincibility && Threatens(scene, body.rect)) ==>
        Advanced(scene, old(scene.powerups), old(activePowerups), old(Durations(scene.powerups + activePowerups)),
                 old(TouchingPowerups(scene.powerups, body.rect)), old(body), old(speedX), old(speedY),
                 old(isShooting), old(shootingCooldown), old(scene.playerProjectiles))
        && unchanged(scene.game)
        && (|scene.playerProjectiles| > |old(scene.playerProjectiles)| ==>
              fresh(scene.playerProjectiles[|old(scene.playerProjectiles)|]))
        && (forall p :: p in old(Idle(scene)) ==> unchanged(p))
    {
      if !scene.isActive {
        return;
      }
      ghost var dur := Durations(scene.powerups + activePowerups);
      ghost var touching := TouchingPowerups(scene.powerups, body.rect);
      ghost var idle := Idle(scene);
      if !loadout.invincibility {
        var threatened := Threatened(scene);
        if threatened {
          Die(scene);
          return;
        }
      }
      assert dur == Durations(scene.powerups + activePowerups);
      assert touching == TouchingPowerups(scene.powerups, body.rect);
      assert idle == Idle(scene);
      Advance(scene);
    }

    /** What a frame that the ship survives leaves behind, in terms of the
        state it started from: the falling list as the pickup scan leaves
        it, and the rest as `Cruised` describes from the active list and
        durations the pickup scan produces. */
    ghost predicate Advanced(scene: Scene, ws: seq<Powerup>, active: seq<Powerup>, dur: map<Powerup, int>,
                             touching: set<Powerup>, b: Body, sx: real, sy: real, shooting: bool,
                             cooldown: int, shots: seq<Projectile>)
      requires forall p :: p in ws ==> p in dur
      requires forall p :: p in active ==> p in dur
      reads this, scene, set p | p in CollectFrom(ws, 0, touching, active, dur).active
      reads set q | q in scene.playerProjectiles
    {
      var c := CollectFrom(ws, 0, touching, active, dur);
      && scene.powerups == c.world
      && Cruised(scene, c.active, c.duration, b, sx, sy, shooting, cooldown, shots)
    }

    /** What movement, shooting and the countdown leave behind, starting
        from the active list `active` with durations `dur`, body `b`, speeds
        (`sx`, `sy`), cooldown `cooldown` and the shot list `shots`: the
        active list and durations as the countdown computes them, and the
        ship as `Flown` describes it with the stats of the active kinds. */
    ghost predicate Cruised(scene: Scene, active: seq<Powerup>, dur: map<Powerup, int>,
                            b: Body, sx: real, sy: real, shooting: bool, cooldown: int, shots: seq<Projectile>)
      requires forall p :: p in active ==> p in dur
      reads this, scene, set p | p in active, set q | q in scene.playerProjectiles
    {
      var t := TickFrom(active, 0, dur, []);
      && activePowerups == t.active
      && (forall p :: p in active ==> p.duration == t.duration[p])
      && Flown(scene, b, sx, sy, shooting, cooldown, shots, Equip(Kinds(active)))
    }

    /** Movement and shooting with stats `l`, from body `b`, speeds
        (`sx`, `sy`), cooldown `cooldown` and the shot list `shots`: the body
        and speeds as `Steered` computes them, the cooldown of the shooting
        rule, and one new shot from the nose exactly when the cooldown was
        zero and the ship was shooting. */
    ghost predicate Flown(scene: Scene, b: Body, sx: real, sy: real, shooting: bool, cooldown: int,
                          shots: seq<Projectile>, l: Loadout)
      reads this`body, this`speedX, this`speedY, this`isShooting, this`shootingCooldown
      reads scene`playerProjectiles, scene.playerProjectiles`body, scene.playerProjectiles`enemiesAlreadyHit
    {
      var fired := cooldown == 0 && shooting;
      && l.maxSpeed >= 0
      && (body, speedX, speedY) == Steered(b, sx, sy, l)
      && isShooting == shooting
      && shootingCooldown ==
           (if cooldown != 0 then cooldown - 1
            else if shooting then l.shootingSpeed else 0)
      && |scene.playerProjectiles| == |shots| + (if fired then 1 else 0)
      && scene.playerProjectiles[..|shots|] == shots
      && (fired ==> ShotBy(scene.playerProjectiles[|shots|], scene.images, l))
    }

    /** The frame of a ship that survives: pickup, movement, shooting and
        the power-up countdown, in that order. */
    method Advance(scene: Scene)
      requires scene.player == this && Valid() && scene.isActive
      modifies this, scene`powerups, scene`playerProjectiles
      modifies Reach(scene)`duration, Reach(scene)`isPickedup, Reach(scene)`player
      ensures Valid()
      ensures Advanced(scene, old(scene.powerups), old(activePowerups), old(Durations(scene.powerups + activePowerups)),
                       old(TouchingPowerups(scene.powerups, body.rect)), old(body), old(speedX), old(speedY),
                       old(isShooting), old(shootingCooldown), old(scene.playerProjectiles))
      ensures |scene.playerProjectiles| > |old(scene.playerProjectiles)| ==>
        fresh(scene.playerProjectiles[|old(scene.playerProjectiles)|])
      ensures forall p :: p in old(Idle(scene)) ==> unchanged(p)
    {
      ghost var c := CollectFrom(scene.powerups, 0, TouchingPowerups(scene.powerups, body.rect),
                                 activePowerups, Durations(scene.powerups + activePowerups));
      CollectPowerups(scene);
      Cruise(scene, c.duration);
    }

    /** Everything the update does after the pickup scan, given a map `dur`
        that agrees with the active power-ups' durations: the ship moves
        into its bounds, the shooting rule runs with the stats of the active
        kinds, and the countdown runs as `TickFrom` computes it. */
    method Cruise(scene: Scene, ghost dur: map<Powerup, int>)
      requires scene.player == this && Valid() && scene.isActive
      requires forall p :: p in activePowerups ==> p in dur && p.duration == dur[p]
      modifies this`body, this`speedX, this`speedY, this`shootingCooldown
      modifies this`activePowerups, this`loadout, scene`powerups, scene`playerProjectiles
      modifies activePowerups`duration
      ensures Valid()
      ensures scene.powerups == old(scene.powerups)
      ensures Cruised(scene, old(activePowerups), dur, old(body), old(speedX), old(speedY), old(isShooting),
                      old(shootingCooldown), old(scene.playerProjectiles))
      ensures |scene.playerProjectiles| > |old(scene.playerProjectiles)| ==>
        fresh(scene.playerProjectiles[|old(scene.playerProjectiles)|])
    {
      Fly(scene);
      UpdatePowerups(scene, dur);
    }

    /** Movement, then the shooting rule, with the current stats. */
    method Fly(scene: Scene)
      requires scene.player == this && shootingCooldown >= 0
      requires loadout.maxSpeed >= 0 && loadout.shootingSpeed > 0
      modifies this`body, this`speedX, this`speedY, this`shootingCooldown, scene`playerProjectiles
      ensures shootingCooldown >= 0
      ensures Flown(scene, old(body), old(speedX), old(speedY), old(isShooting), old(shootingCooldown),
                    old(scene.playerProjectiles), loadout)
      ensures |scene.playerProjectiles| > |old(scene.playerProjectiles)| ==>
        fresh(scene.playerProjectiles[|old(scene.playerProjectiles)|])
    {
      Steer();
      Reload(scene);
    }

    /** The body and speeds after `updateSpeed` and `updatePosition`, for a
        ship at `b` moving at (`sx`, `sy`) with stats `l`: the speeds are
        damped, the ship moves by them and is pushed back inside the window
        horizontally and into its band vertically, and an axis on which it
        was pushed stops. */
    function Steered(b: Body, sx: real, sy: real, l: Loadout): (s: (Body, real, real))
      requires l.maxSpeed >= 0
      ensures s.0.rect.w == b.rect.w && s.0.rect.h == b.rect.h
      ensures 0 <= s.0.rect.x <= ScreenWidth - width
      ensures minHeight <= s.0.rect.y + height <= ScreenHeight
      ensures Abs(s.1) <= l.maxSpeed as real && Abs(s.2) <= l.maxSpeed as real
      ensures (s.1 == 0.0 || s.1 == Damped(sx, l)) && (s.2 == 0.0 || s.2 == Damped(sy, l))
    {
      var vx := Damped(sx, l);
      var vy := Damped(sy, l);
      var m := b.MoveFloat(vx, vy);
      var outX := m.rect.x < 0 || m.rect.x + width > ScreenWidth;
      var outY := m.rect.y + height < minHeight || m.rect.y + height > ScreenHeight;
      (m.At(if m.rect.x < 0 then 0 else if outX then ScreenWidth - width else m.rect.x,
            if m.rect.y + height < minHeight then minHeight - height
            else if outY then ScreenHeight - height else m.rect.y),
       if outX then 0.0 else vx,
       if outY then 0.0 else vy)
    }

    /** `updateSpeed` followed by `updatePosition`. */
    method Steer()
      requires loadout.maxSpeed >= 0
      modifies this`body, this`speedX, this`speedY
      ensures (body, speedX, speedY) == Steered(old(body), old(speedX), old(speedY), loadout)
    {
      UpdateSpeed();
      Move(speedX, speedY);
    }

    /** `p` is a shot this ship fires from where it now is, with stats `l`:
        from the middle of its top edge, at `l`'s speed and damage, having
        hit nothing yet. */
    ghost predicate ShotBy(p: Projectile, images: Sprite -> Size, l: Loadout)
      reads this`body, p`body, p`enemiesAlreadyHit
    {
      && p.shooter == this
      && p.travelSpeed == l.projectileSpeed && p.damage == l.projectileDamage
      && p.body == Launched(images(PlayerShot), body.rect.x as real + width as real / 2.0, body.rect.y)
      && p.enemiesAlreadyHit == []
    }

    /** The shooting rule of the update: with the cooldown at zero a
        shooting ship fires and the cooldown restarts at `shootingSpeed`;
        otherwise a positive cooldown counts down. */
    method Reload(scene: Scene)
      requires scene.player == this && shootingCooldown >= 0 && loadout.shootingSpeed > 0
      modifies this`shootingCooldown, scene`playerProjectiles
      ensures shootingCooldown >= 0
      ensures shootingCooldown ==
        (if old(shootingCooldown) != 0 then old(shootingCooldown) - 1
         else if isShooting then loadout.shootingSpeed else 0)
      ensures var fired := old(shootingCooldown) == 0 && isShooting;
        && |scene.playerProjectiles| == |old(scene.playerProjectiles)| + (if fired then 1 else 0)
        && scene.playerProjectiles[..|old(scene.playerProjectiles)|] == old(scene.playerProjectiles)
        && (fired ==>
              var p := scene.playerProjectiles[|old(scene.playerProjectiles)|];
              fresh(p) && ShotBy(p, scene.images, loadout))
    {
      if shootingCooldown == 0 {
        if isShooting {
          Shoot(scene);
          shootingCooldown := loadout.shootingSpeed;
        }
      } else if shootingCooldown > 0 {
        shootingCooldown := shootingCooldown - 1;
      }
    }
  }

  // ---------------------------------------------------------------------
  // Enemy ships and the boss
  // ---------------------------------------------------------------------

  /** Where a dying enemy places the power-up it drops: the power-up's
      rectangle centred on the enemy's centre, as a fractional offset. */
  function DropOffset(enemy: Rect, powerup: Rect): (real, real) {
    var (cx, cy) := enemy.Center();
    (cx as real - powerup.w as real / 2.0, cy as real - powerup.h as real / 2.0)
  }

  class Enemy {
    const sprite: Sprite
    const width: nat
    const yJump: int := 50
    const powerup: Powerup?
    const scoreValue: int
    var body: Body
    var speed: (real, real)
    var healthPoints: int

    /** The ship as the level and the boss see it. */
    ghost function Snapshot(): EnemySpec
      reads this
    {
      EnemySpec(sprite, body.rect.x, body.rect.y, healthPoints, scoreValue, speed,
                if powerup == null then None else Some(powerup.kind))
    }

    /** A ship of the sprite's size at `(x, y)`, moving right at 2 pixels
        per frame. */
    constructor (images: Sprite -> Size, sprite: Sprite, x: int, y: int,
                 healthPoints: int := 1, powerup: Powerup? := null, scoreValue: int := 100)
      ensures Snapshot() == EnemySpec(sprite, x, y, healthPoints, scoreValue, (2.0, 0.0),
                                      if powerup == null then None else Some(powerup.kind))
      ensures this.powerup == powerup && width == images(sprite).w
      ensures body == Body(Rect(x, y, images(sprite).w, images(sprite).h), 0.0, 0.0)
    {
      this.sprite := sprite;
      var b := Placed(images(sprite));
      body := Body(b.rect.Move(x, y), 0.0, 0.0);
      speed := (2.0, 0.0);
      width := b.rect.w;
      this.healthPoints := healthPoints;
      this.powerup := powerup;
      this.scoreValue := scoreValue;
    }

    /** One frame: move; on leaving the window sideways, reverse and drop by
        `yJump`; then snap back to the edge that was crossed. */
    method Update(scene: Scene)
      modifies this`body, this`speed
      ensures !scene.isActive ==> body == old(body) && speed == old(speed)
      ensures scene.isActive ==>
        var m := old(body).MoveFloat(old(speed).0, old(speed).1);
        var out := m.rect.x < 0 || m.rect.x + width > ScreenWidth;
        && speed == (if out then (-old(speed).0, old(speed).1) else old(speed))
        && body == m.At(if m.rect.x < 0 then 0 else if out then ScreenWidth - width else m.rect.x,
                        m.rect.y + (if out then yJump else 0))
      ensures scene.isActive && width <= ScreenWidth ==> 0 <= body.rect.x <= ScreenWidth - width
    {
      if !scene.isActive {
        return;
      }
      body := body.MoveFloat(speed.0, speed.1);
      if body.rect.x < 0 || body.rect.x + width > ScreenWidth {
        speed := (-speed.0, speed.1);
        body := body.At(body.rect.x, body.rect.y + yJump);
      }
      if body.rect.x < 0 {
        body := body.At(0, body.rect.y);
      } else if body.rect.x + width > ScreenWidth {
        body := body.At(ScreenWidth - width, body.rect.y);
      }
    }

    /** Award the score, drop the carried power-up where the ship was,
        leave the enemy list and let the scene check for the end. */
    method Die(scene: Scene)
      modifies scene`score, scene`powerups, scene`enemies, scene`endChecks
      modifies (if powerup != null then {powerup} else {})`body
      ensures scene.score == old(scene.score) + scoreValue
      ensures scene.powerups == old(scene.powerups) + Drop(this)
      ensures scene.enemies == RemoveFirst(old(scene.enemies), this)
      ensures scene.endChecks == old(scene.endChecks) + 1
      ensures powerup != null ==> powerup.body == DropBody(body.rect, old(powerup.body))
    {
      scene.score := scene.score + scoreValue;
      if powerup != null {
        var (x, y) := DropOffset(body.rect, powerup.body.rect);
        powerup.body := powerup.body.MoveFloat(x, y);
        scene.powerups := scene.powerups + [powerup];
      }
      scene.enemies := RemoveFirstIn(scene.enemies, this);
      scene.endChecks := scene.endChecks + 1;
    }

    /** Lose `value` health points and die when none are left. */
    method Damage(value: int, scene: Scene)
      modifies this`healthPoints, scene`score, scene`powerups, scene`enemies, scene`endChecks
      modifies (if powerup != null then {powerup} else {})`body
      ensures healthPoints == old(healthPoints) - value
      ensures healthPoints <= 0 ==>
        && scene.score == old(scene.score) + scoreValue
        && scene.powerups == old(scene.powerups) + Drop(this)
        && scene.enemies == RemoveFirst(old(scene.enemies), this)
        && scene.endChecks == old(scene.endChecks) + 1
        && (powerup != null ==> powerup.body == DropBody(body.rect, old(powerup.body)))
      ensures healthPoints > 0 ==>
        && scene.score == old(scene.score) && scene.powerups == old(scene.powerups)
        && scene.enemies == old(scene.enemies) && scene.endChecks == old(scene.endChecks)
        && (powerup != null ==> powerup.body == old(powerup.body))
    {
      healthPoints := healthPoints - value;
      if healthPoints <= 0 {
        Die(scene);
      }
    }

    /** Replace the speed; returns the ship itself for chaining. */
    method SetSpeed(newSpeed: (real, real)) returns (self: Enemy)
      modifies this`speed
      ensures speed == newSpeed && self == this
    {
      speed := newSpeed;
      return this;
    }
  }

  /** The chance of the boss's next phase: cycling through the two opening
      phases while it has more than half of its health, through all three
      once it is down to half or less. */
  function PhaseAfter(phase: int, hp: int, maxHp: int): (next: int)
    ensures 0 <= next <= 2
    ensures hp as real > maxHp as real / 2.0 ==> next <= 1
    ensures next == 2 ==> hp as real <= maxHp as real / 2.0
  {
    if hp as real > maxHp as real / 2.0 then (phase + 1) % 2 else (phase + 1) % 3
  }

  /** The order of the boss's phases: above half health the boss alternates
      between phases 0 and 1; at half health or below it goes round 0, 1, 2. */
  lemma PhaseCycle(hp: int, maxHp: int)
    ensures hp as real > maxHp as real / 2.0 ==>
      PhaseAfter(0, hp, maxHp) == 1 && PhaseAfter(1, hp, maxHp) == 0
    ensures hp as real <= maxHp as real / 2.0 ==>
      PhaseAfter(0, hp, maxHp) == 1 && PhaseAfter(1, hp, maxHp) == 2 && PhaseAfter(2, hp, maxHp) == 0
  {
  }

  /** Shot speed and cooldown the boss uses in each phase. */
  function PhaseTuning(phase: int): (tuning: (int, int))
    requires 0 <= phase <= 2
    ensures tuning.0 > 0 && tuning.1 > 0
  {
    if phase == 0 then (2, 70) else if phase == 1 then (3, 60) else (3, 50)
  }

  /** The shots of one volley in each phase: image and direction. Phase 0
      fires straight down, phase 1 along `aim` (towards the player), phase 2
      straight down and rotated 30 degrees to either side, given
      `cos30 = cos(pi/6)`. */
  function ShotPlan(phase: int, aim: (real, real), cos30: real): (plan: seq<(Sprite, (real, real))>)
    ensures |plan| == if phase == 2 then 3 else if phase == 0 || phase == 1 then 1 else 0
  {
    if phase == 0 then [(EnemyShot, (0.0, 1.0))]
    else if phase == 1 then [(EnemyShotDirected, aim)]
    else if phase == 2 then
      [(EnemyShotSpread, (0.0, 1.0)), (EnemyShotSpread, (-0.5, cos30)), (EnemyShotSpread, (0.5, cos30))]
    else []
  }

  /** Every volley direction other than the aimed one is a unit vector,
      given that `cos30` squares to 3/4 as cos(pi/6) does. */
  lemma ShotPlanUnit(phase: int, aim: (real, real), cos30: real)
    requires cos30 * cos30 == 0.75
    ensures var plan := ShotPlan(phase, aim, cos30);
      forall k :: 0 <= k < |plan| && phase != 1 ==> plan[k].1.0 * plan[k].1.0 + plan[k].1.1 * plan[k].1.1 == 1.0
  {
  }

  /** The escort ships a phase change brings, relative to the boss at
      `(x, y)`: each has 3 health points, is worth 5000 and carries a
      power-up. */
  function EscortPlan(phase: int, x: int, y: int): (plan: seq<EnemySpec>)
    ensures |plan| == if phase == 0 || phase == 1 then 1 else 2
    ensures forall k :: 0 <= k < |plan| ==>
      plan[k].sprite == EnemySpecial && plan[k].healthPoints == 3 && plan[k].scoreValue == 5000
      && plan[k].y == y + 100 && plan[k].carries.Some?
  {
    if phase == 0 then
      [EnemySpec(EnemySpecial, x + 50, y + 100, 3, 5000, (2.0, 0.0), Some(Speed))]
    else if phase == 1 then
      [EnemySpec(EnemySpecial, x - 50, y + 100, 3, 5000, (-2.0, 0.0), Some(Invincibility))]
    else
      [EnemySpec(EnemySpecial, x - 50, y + 100, 3, 5000, (2.0, 0.0), Some(Power)),
       EnemySpec(EnemySpecial, x + 50, y + 100, 3, 5000, (2.0, 0.0), Some(Invincibility))]
  }

  /** The ships one spawn wave of `n` pairs brings, relative to the boss at
      `(x, y)`: pair `i` (from 0) is 50*(i+1) pixels to the left, moving
      left, and as far to the right, moving right. */
  function SpawnPlan(n: nat, x: int, y: int): seq<EnemySpec>
    decreases n
  {
    if n == 0 then []
    else SpawnPlan(n - 1, x, y) + [
      EnemySpec(Enemy1, x - 50 * n, y + 100, 1, 1000, (-2.0, 0.0), None),
      EnemySpec(Enemy1, x + 50 * n, y + 100, 1, 1000, (2.0, 0.0), None)]
  }

  /** A wave of `n` pairs is `2n` plain ships worth 1000 each, placed
      symmetrically about the boss one row below it and flying apart. */
  lemma {:induction false} SpawnPlanShape(n: nat, x: int, y: int)
    ensures |SpawnPlan(n, x, y)| == 2 * n
    ensures forall i :: 0 <= i < n ==>
      && SpawnPlan(n, x, y)[2 * i] == EnemySpec(Enemy1, x - 50 * (i + 1), y + 100, 1, 1000, (-2.0, 0.0), None)
      && SpawnPlan(n, x, y)[2 * i + 1] == EnemySpec(Enemy1, x + 50 * (i + 1), y + 100, 1, 1000, (2.0, 0.0), None)
    decreases n
  {
    if n > 0 {
      SpawnPlanShape(n - 1, x, y);
    }
  }

  /** The snapshots of a list of enemies. */
  ghost function Specs(es: seq<Enemy>): (r: seq<EnemySpec>)
    reads set e | e in es
    ensures |r| == |es|
  {
    seq(|es|, k reads set e | e in es requires 0 <= k < |es| => es[k].Snapshot())
  }

  /** The snapshots of a list of one or two enemies, spelled out. */
  lemma SpecsOfFew(es: seq<Enemy>)
    requires 1 <= |es| <= 2
    ensures |es| == 1 ==> Specs(es) == [es[0].Snapshot()]
    ensures |es| == 2 ==> Specs(es) == [es[0].Snapshot(), es[1].Snapshot()]
  {
  }

  /** Snapshots distribute over concatenation. */
  lemma SpecsAppend(a: seq<Enemy>, b: seq<Enemy>)
    ensures Specs(a + b) == Specs(a) + Specs(b)
  {
    assert forall k :: 0 <= k < |a| ==> (a + b)[k] == a[k];
    assert forall k :: |a| <= k < |a + b| ==> (a + b)[k] == b[k - |a|];
  }

  /** The final boss: an enemy ship (`enemy`, which holds its rectangle,
      health and score value) with its own movement, volleys, spawn waves
      and phases. */
  class Boss {
    const enemy: Enemy
    const maxHp: int := 120
    const startingPhaseDuration: int := 300
    const spawnSpeed: int := 300
    var speed: real
    var projectileSpeed: int
    var shootingSpeed: int
    var shootingCooldown: int
    var currentPhase: int
    var phaseDuration: int
    var spawnCooldown: int

    /** Phase, cooldowns and counters stay in their ranges. */
    ghost predicate Valid()
      reads this
    {
      && 0 <= currentPhase <= 2
      && 0 <= shootingCooldown && 0 <= shootingSpeed
      && 1 <= phaseDuration <= startingPhaseDuration
      && 0 <= spawnCooldown <= spawnSpeed
    }

    /** A boss centred horizontally at the top with full health, in phase 0. */
    constructor (images: Sprite -> Size)
      ensures fresh(enemy)
      ensures enemy.Snapshot() ==
        EnemySpec(BossShip, Trunc((ScreenWidth - images(BossShip).w) as real / 2.0), 30,
                  120, 100000, (2.0, 0.0), None)
      ensures enemy.width == images(BossShip).w
      ensures speed == 1.5 && projectileSpeed == 2 && shootingSpeed == 60 && shootingCooldown == 0
      ensures currentPhase == 0 && phaseDuration == 300 && spawnCooldown == 150
      ensures Valid()
    {
      var x := (ScreenWidth - images(BossShip).w) as real / 2.0;
      enemy := new Enemy(images, BossShip, Trunc(x), 30, healthPoints := 120, scoreValue := 100000);
      speed := 1.5;
      projectileSpeed := 2;
      shootingSpeed := 60;
      shootingCooldown := 0;
      currentPhase := 0;
      phaseDuration := 300;
      spawnCooldown := 150;
    }

    /** Fire the volley of the current phase from the middle of the boss's
        bottom edge, 10 pixels up. */
    method Shoot(scene: Scene, aim: (real, real), cos30: real)
      modifies scene`bossProjectiles
      ensures var n := |old(scene.bossProjectiles)|;
        var plan := ShotPlan(currentPhase, aim, cos30);
        var r := enemy.body.rect;
        && |scene.bossProjectiles| == n + |plan|
        && scene.bossProjectiles[..n] == old(scene.bossProjectiles)
        && (forall k :: n <= k < |scene.bossProjectiles| ==>
              fresh(scene.bossProjectiles[k]) && scene.bossProjectiles[k].travelSpeed == projectileSpeed)
        && forall k :: 0 <= k < |plan| ==>
             var q := scene.bossProjectiles[n + k];
             && q.travel == plan[k].1
             && q.body == Launched(scene.images(plan[k].0), r.x as real + enemy.width as real / 2.0,
                                   r.y + r.h - 10)
    {
      var r := enemy.body.rect;
      var mx := r.x as real + enemy.width as real / 2.0;
      var my := r.y + r.h - 10;
      var plan := ShotPlan(currentPhase, aim, cos30);
      ghost var n := |scene.bossProjectiles|;
      var k := 0;
      while k < |plan|
        invariant 0 <= k <= |plan|
        invariant |scene.bossProjectiles| == n + k
        invariant scene.bossProjectiles[..n] == old(scene.bossProjectiles)
        invariant forall j :: n <= j < |scene.bossProjectiles| ==>
          fresh(scene.bossProjectiles[j]) && scene.bossProjectiles[j].travelSpeed == projectileSpeed
        invariant forall j :: 0 <= j < k ==>
          var q := scene.bossProjectiles[n + j];
          && q.travel == plan[j].1
          && q.body == Launched(scene.images(plan[j].0), mx, my)
      {
        var q := new BossProjectile(scene, scene.images(plan[k].0), mx, my, plan[k].1, projectileSpeed);
        k := k + 1;
      }
    }

    /** Add one wave of `n` ship pairs around the boss. */
    method SpawnShip(scene: Scene, n: nat)
      modifies scene`enemies
      ensures |old(scene.enemies)| <= |scene.enemies|
      ensures scene.enemies[..|old(scene.enemies)|] == old(scene.enemies)
      ensures forall k :: |old(scene.enemies)| <= k < |scene.enemies| ==> fresh(scene.enemies[k])
      ensures Specs(scene.enemies[|old(scene.enemies)|..]) ==
              SpawnPlan(n, enemy.body.rect.x, enemy.body.rect.y)
    {
      var x := enemy.body.rect.x;
      var y := enemy.body.rect.y;
      ghost var n0 := |scene.enemies|;
      var i := 0;
      while i < n
        invariant 0 <= i <= n
        invariant |scene.enemies| == n0 + 2 * i
        invariant scene.enemies[..n0] == old(scene.enemies)
        invariant forall k :: n0 <= k < |scene.enemies| ==> fresh(scene.enemies[k])
        invariant Specs(scene.enemies[n0..]) == SpawnPlan(i, x, y)
      {
        ghost var before := scene.enemies[n0..];
        ghost var pair := Flank(scene, x, y, i);
        assert scene.enemies[n0..] == before + pair;
        SpecsAppend(before, pair);
        i := i + 1;
      }
    }

    /** One turn of the spawn loop: a ship `50 * (i + 1)` pixels left of
        `x`, set moving left, then one as far to the right. */
    method Flank(scene: Scene, x: int, y: int, i: nat) returns (ghost pair: seq<Enemy>)
      modifies scene`enemies
      ensures scene.enemies == old(scene.enemies) + pair
      ensures |pair| == 2 && fresh(pair[0]) && fresh(pair[1])
      ensures Specs(pair) == [
        EnemySpec(Enemy1, x - 50 * (i + 1), y + 100, 1, 1000, (-2.0, 0.0), None),
        EnemySpec(Enemy1, x + 50 * (i + 1), y + 100, 1, 1000, (2.0, 0.0), None)]
    {
      var left := new Enemy(scene.images, Enemy1, x - 50 * (i + 1), y + 100, scoreValue := 1000);
      left := left.SetSpeed((-2.0, 0.0));
      scene.enemies := scene.enemies + [left];
      var right := new Enemy(scene.images, Enemy1, x + 50 * (i + 1), y + 100, scoreValue := 1000);
      scene.enemies := scene.enemies + [right];
      pair := [left, right];
      SpecsOfFew(pair);
    }

    /** Pick the next phase, restart its countdown, retune the volleys and
        bring in the phase's escort ships with their power-ups. */
    method NextPhase(scene: Scene)
      modifies this`currentPhase, this`phaseDuration, this`projectileSpeed, this`shootingSpeed
      modifies scene`enemies
      ensures currentPhase == PhaseAfter(old(currentPhase), enemy.healthPoints, maxHp)
      ensures phaseDuration == startingPhaseDuration
      ensures (projectileSpeed, shootingSpeed) == PhaseTuning(currentPhase)
      ensures |old(scene.enemies)| <= |scene.enemies|
      ensures scene.enemies[..|old(scene.enemies)|] == old(scene.enemies)
      ensures forall k :: |old(scene.enemies)| <= k < |scene.enemies| ==>
        fresh(scene.enemies[k]) && fresh(scene.enemies[k].powerup)
      ensures Specs(scene.enemies[|old(scene.enemies)|..]) ==
              EscortPlan(currentPhase, enemy.body.rect.x, enemy.body.rect.y)
    {
      currentPhase := PhaseAfter(currentPhase, enemy.healthPoints, maxHp);
      phaseDuration := startingPhaseDuration;
      projectileSpeed, shootingSpeed := PhaseTuning(currentPhase).0, PhaseTuning(currentPhase).1;
      Escort(scene, currentPhase, enemy.body.rect.x, enemy.body.rect.y);
    }

    /** The escort that joins the boss when it enters `phase`, placed
        around the boss's position (`x`, `y`). */
    method Escort(scene: Scene, phase: int, x: int, y: int)
      modifies scene`enemies
      ensures |old(scene.enemies)| <= |scene.enemies|
      ensures scene.enemies[..|old(scene.enemies)|] == old(scene.enemies)
      ensures forall k :: |old(scene.enemies)| <= k < |scene.enemies| ==>
        fresh(scene.enemies[k]) && fresh(scene.enemies[k].powerup)
      ensures Specs(scene.enemies[|old(scene.enemies)|..]) == EscortPlan(phase, x, y)
    {
      ghost var e0 := scene.enemies;
      ghost var plan := EscortPlan(phase, x, y);
      if phase == 0 {
        var p := new Powerup(scene.images, Speed);
        var e := new Enemy(scene.images, EnemySpecial, x + 50, y + 100, 3, p, 5000);
        assert e.Snapshot() == plan[0];
        scene.enemies := scene.enemies + [e];
        assert scene.enemies[|e0|..] == [e];
        SpecsOfFew([e]);
      } else if phase == 1 {
        var p := new Powerup(scene.images, Invincibility);
        var e := new Enemy(scene.images, EnemySpecial, x - 50, y + 100, 3, p, 5000);
        e := e.SetSpeed((-2.0, 0.0));
        assert e.Snapshot() == plan[0];
        scene.enemies := scene.enemies + [e];
        assert scene.enemies[|e0|..] == [e];
        SpecsOfFew([e]);
      } else {
        var p1 := new Powerup(scene.images, Power);
        var p2 := new Powerup(scene.images, Invincibility);
        var e1 := new Enemy(scene.images, EnemySpecial, x - 50, y + 100, 3, p1, 5000);
        assert e1.Snapshot() == plan[0];
        var e2 := new Enemy(scene.images, EnemySpecial, x + 50, y + 100, 3, p2, 5000);
        assert e2.Snapshot() == plan[1];
        scene.enemies := scene.enemies + [e1, e2];
        assert scene.enemies[|e0|..] == [e1, e2];
        SpecsOfFew([e1, e2]);
      }
    }

    /** One frame of the boss (not gated on the scene being active): glide
        sideways, reversing at the 100-pixel margins and snapping back
        inside them; fire when the shot cooldown is zero; spawn a wave of
        `spawnCount` pairs when the spawn cooldown is zero; move to the next
        phase when the phase countdown runs out. */
    method Update(scene: Scene, spawnCount: nat, aim: (real, real), cos30: real)
      requires Valid() && 1 <= spawnCount <= 3
      modifies this`speed, this`projectileSpeed, this`shootingSpeed, this`shootingCooldown
      modifies this`currentPhase, this`phaseDuration, this`spawnCooldown
      modifies enemy`body, scene`enemies, scene`bossProjectiles
      ensures Valid()
      ensures var m := old(enemy.body).MoveFloat(old(speed), 0.0);
        && speed == (if m.rect.x <= 100 || m.rect.x + m.rect.w >= ScreenWidth - 100 then -old(speed) else old(speed))
        && enemy.body == m.At(
             if m.rect.x < 100 then 100
             else if m.rect.x + enemy.width > ScreenWidth - 100 then ScreenWidth - enemy.width - 100
             else m.rect.x,
             m.rect.y)
      ensures enemy.width <= ScreenWidth - 200 ==> 100 <= enemy.body.rect.x <= ScreenWidth - 100 - enemy.width
      ensures var n := |old(scene.bossProjectiles)|;
        var volley := if old(shootingCooldown) == 0 then |ShotPlan(old(currentPhase), aim, cos30)| else 0;
        && |scene.bossProjectiles| == n + volley
        && scene.bossProjectiles[..n] == old(scene.bossProjectiles)
        && (forall k :: n <= k < |scene.bossProjectiles| ==>
              fresh(scene.bossProjectiles[k]) && scene.bossProjectiles[k].travelSpeed == old(projectileSpeed))
        && forall k :: 0 <= k < volley ==>
             var q := scene.bossProjectiles[n + k];
             && q.travel == ShotPlan(old(currentPhase), aim, cos30)[k].1
             && q.body == Launched(scene.images(ShotPlan(old(currentPhase), aim, cos30)[k].0),
                                   enemy.body.rect.x as real + enemy.width as real / 2.0,
                                   enemy.body.rect.y + enemy.body.rect.h - 10)
      ensures shootingCooldown ==
        if old(shootingCooldown) == 0 then old(shootingSpeed) else old(shootingCooldown) - 1
      ensures spawnCooldown == if old(spawnCooldown) == 0 then spawnSpeed else old(spawnCooldown) - 1
      ensures old(phaseDuration) == 1 ==>
        && currentPhase == PhaseAfter(old(currentPhase), enemy.healthPoints, maxHp)
        && phaseDuration == startingPhaseDuration
        && (projectileSpeed, shootingSpeed) == PhaseTuning(currentPhase)
      ensures old(phaseDuration) != 1 ==>
        && currentPhase == old(currentPhase) && phaseDuration == old(phaseDuration) - 1
        && projectileSpeed == old(projectileSpeed) && shootingSpeed == old(shootingSpeed)
      ensures |old(scene.enemies)| <= |scene.enemies|
      ensures scene.enemies[..|old(scene.enemies)|] == old(scene.enemies)
      ensures forall k :: |old(scene.enemies)| <= k < |scene.enemies| ==> fresh(scene.enemies[k])
      ensures Specs(scene.enemies[|old(scene.enemies)|..]) ==
        (if old(spawnCooldown) == 0 then SpawnPlan(spawnCount, enemy.body.rect.x, enemy.body.rect.y) else [])
        + (if old(phaseDuration) == 1 then EscortPlan(currentPhase, enemy.body.rect.x, enemy.body.rect.y) else [])
    {
      Glide();
      Volley(scene, aim, cos30);
      Grow(scene, spawnCount);
    }

    /** The spawning part of the update: the wave when the spawn cooldown
        is zero, then the phase countdown with its escort. */
    method Grow(scene: Scene, spawnCount: nat)
      requires 0 <= spawnCooldown <= spawnSpeed
      requires 1 <= phaseDuration <= startingPhaseDuration && 0 <= currentPhase <= 2
      modifies this`currentPhase, this`phaseDuration, this`projectileSpeed, this`shootingSpeed
      modifies this`spawnCooldown, scene`enemies
      ensures 0 <= spawnCooldown <= spawnSpeed
      ensures 1 <= phaseDuration <= startingPhaseDuration && 0 <= currentPhase <= 2
      ensures spawnCooldown == if old(spawnCooldown) == 0 then spawnSpeed else old(spawnCooldown) - 1
      ensures old(phaseDuration) == 1 ==>
        && currentPhase == PhaseAfter(old(currentPhase), enemy.healthPoints, maxHp)
        && phaseDuration == startingPhaseDuration
        && (projectileSpeed, shootingSpeed) == PhaseTuning(currentPhase)
      ensures old(phaseDuration) != 1 ==>
        && currentPhase == old(currentPhase) && phaseDuration == old(phaseDuration) - 1
        && projectileSpeed == old(projectileSpeed) && shootingSpeed == old(shootingSpeed)
      ensures |old(scene.enemies)| <= |scene.enemies|
      ensures scene.enemies[..|old(scene.enemies)|] == old(scene.enemies)
      ensures forall k :: |old(scene.enemies)| <= k < |scene.enemies| ==> fresh(scene.enemies[k])
      ensures Specs(scene.enemies[|old(scene.enemies)|..]) ==
        (if old(spawnCooldown) == 0 then SpawnPlan(spawnCount, enemy.body.rect.x, enemy.body.rect.y) else [])
        + (if old(phaseDuration) == 1 then EscortPlan(currentPhase, enemy.body.rect.x, enemy.body.rect.y) else [])
    {
      ghost var e0 := scene.enemies;
      Reinforce(scene, spawnCount);
      ghost var e1 := scene.enemies;
      Age(scene);
      SpecsAppend(e1[|e0|..], scene.enemies[|e1|..]);
      assert scene.enemies[|e0|..] == e1[|e0|..] + scene.enemies[|e1|..];
    }

    /** The movement part of the update: glide sideways by `speed`, reverse
        on reaching either 100-pixel margin, and snap back inside them. */
    method Glide()
      modifies this`speed, enemy`body
      ensures var m := old(enemy.body).MoveFloat(old(speed), 0.0);
        && speed == (if m.rect.x <= 100 || m.rect.x + m.rect.w >= ScreenWidth - 100 then -old(speed) else old(speed))
        && enemy.body == m.At(
             if m.rect.x < 100 then 100
             else if m.rect.x + enemy.width > ScreenWidth - 100 then ScreenWidth - enemy.width - 100
             else m.rect.x,
             m.rect.y)
      ensures enemy.width <= ScreenWidth - 200 ==> 100 <= enemy.body.rect.x <= ScreenWidth - 100 - enemy.width
    {
      enemy.body := enemy.body.MoveFloat(speed, 0.0);
      var r := enemy.body.rect;
      if r.x <= 100 || r.x + r.w >= ScreenWidth - 100 {
        speed := -speed;
      }
      if r.x < 100 {
        enemy.body := enemy.body.At(100, r.y);
      } else if r.x + enemy.width > ScreenWidth - 100 {
        enemy.body := enemy.body.At(ScreenWidth - enemy.width - 100, r.y);
      }
    }

    /** The shooting part of the update: fire the phase's volley when the
        cooldown is zero and restart it at `shootingSpeed`, otherwise count
        a positive cooldown down. */
    method Volley(scene: Scene, aim: (real, real), cos30: real)
      requires 0 <= shootingCooldown && 0 <= shootingSpeed
      modifies this`shootingCooldown, scene`bossProjectiles
      ensures 0 <= shootingCooldown
      ensures shootingCooldown == if old(shootingCooldown) == 0 then shootingSpeed else old(shootingCooldown) - 1
      ensures var n := |old(scene.bossProjectiles)|;
        var volley := if old(shootingCooldown) == 0 then |ShotPlan(currentPhase, aim, cos30)| else 0;
        && |scene.bossProjectiles| == n + volley
        && scene.bossProjectiles[..n] == old(scene.bossProjectiles)
        && (forall k :: n <= k < |scene.bossProjectiles| ==>
              fresh(scene.bossProjectiles[k]) && scene.bossProjectiles[k].travelSpeed == projectileSpeed)
        && forall k :: 0 <= k < volley ==>
             var q := scene.bossProjectiles[n + k];
             && q.travel == ShotPlan(currentPhase, aim, cos30)[k].1
             && q.body == Launched(scene.images(ShotPlan(currentPhase, aim, cos30)[k].0),
                                   enemy.body.rect.x as real + enemy.width as real / 2.0,
                                   enemy.body.rect.y + enemy.body.rect.h - 10)
    {
      if shootingCooldown == 0 {
        Shoot(scene, aim, cos30);
        shootingCooldown := shootingSpeed;
      } else if shootingCooldown > 0 {
        shootingCooldown := shootingCooldown - 1;
      }
    }

    /** The spawning part of the update: bring in a wave of `spawnCount`
        pairs when the spawn cooldown is zero and restart it, otherwise
        count a positive cooldown down. */
    method Reinforce(scene: Scene, spawnCount: nat)
      requires 0 <= spawnCooldown <= spawnSpeed
      modifies this`spawnCooldown, scene`enemies
      ensures 0 <= spawnCooldown <= spawnSpeed
      ensures spawnCooldown == if old(spawnCooldown) == 0 then spawnSpeed else old(spawnCooldown) - 1
      ensures |old(scene.enemies)| <= |scene.enemies|
      ensures scene.enemies[..|old(scene.enemies)|] == old(scene.enemies)
      ensures forall k :: |old(scene.enemies)| <= k < |scene.enemies| ==> fresh(scene.enemies[k])
      ensures Specs(scene.enemies[|old(scene.enemies)|..]) ==
        if old(spawnCooldown) == 0 then SpawnPlan(spawnCount, enemy.body.rect.x, enemy.body.rect.y) else []
    {
      if spawnCooldown == 0 {
        SpawnShip(scene, spawnCount);
        spawnCooldown := spawnSpeed;
      } else if spawnCooldown > 0 {
        spawnCooldown := spawnCooldown - 1;
        assert scene.enemies[|scene.enemies|..] == [];
      }
    }

    /** The phase part of the update: count the phase down and move to the
        next phase when it runs out. */
    method Age(scene: Scene)
      requires 1 <= phaseDuration <= startingPhaseDuration && 0 <= currentPhase <= 2
      modifies this`currentPhase, this`phaseDuration, this`projectileSpeed, this`shootingSpeed
      modifies scene`enemies
      ensures 1 <= phaseDuration <= startingPhaseDuration && 0 <= currentPhase <= 2
      ensures old(phaseDuration) == 1 ==>
        && currentPhase == PhaseAfter(old(currentPhase), enemy.healthPoints, maxHp)
        && phaseDuration == startingPhaseDuration
        && (projectileSpeed, shootingSpeed) == PhaseTuning(currentPhase)
      ensures old(phaseDuration) != 1 ==>
        && currentPhase == old(currentPhase) && phaseDuration == old(phaseDuration) - 1
        && projectileSpeed == old(projectileSpeed) && shootingSpeed == old(shootingSpeed)
      ensures |old(scene.enemies)| <= |scene.enemies|
      ensures scene.enemies[..|old(scene.enemies)|] == old(scene.enemies)
      ensures forall k :: |old(scene.enemies)| <= k < |scene.enemies| ==> fresh(scene.enemies[k])
      ensures Specs(scene.enemies[|old(scene.enemies)|..]) ==
        if old(phaseDuration) == 1 then EscortPlan(currentPhase, enemy.body.rect.x, enemy.body.rect.y) else []
    {
      phaseDuration := phaseDuration - 1;
      if phaseDuration == 0 {
        NextPhase(scene);
      } else {
        assert scene.enemies[|scene.enemies|..] == [];
      }
    }
  }
}
