/** The game's levels: the kill scores each one sets and the formation of
    enemy ships its `load` builds into the level's object lists. */
module Levels {
  import opened Geometry
  import opened Gameplay

  /** The base `Level` and its five subclasses. */
  datatype LevelKind = BaseLevel | Level1 | Level2 | Level3 | Level4 | Level5

  /** The levels whose `load` lays out rows of ships. */
  predicate HasRows(k: LevelKind) {
    k == Level1 || k == Level2 || k == Level3 || k == Level4
  }

  /** The factor a level's constructor multiplies both kill scores by. */
  function Multiplier(k: LevelKind): (m: real)
    ensures m >= 1.0
  {
    match k
    case BaseLevel => 1.0
    case Level1 => 1.0
    case Level2 => 1.5
    case Level3 => 4.5
    case Level4 => 6.0
    case Level5 => 10.0
  }

  /** `int(self.killScore)`: the score of an ordinary ship, per hit point. */
  function KillScore(k: LevelKind): int {
    Trunc(100.0 * Multiplier(k))
  }

  /** `int(self.specialKillScore)`: the score of a ship carrying a power-up. */
  function SpecialKillScore(k: LevelKind): int {
    Trunc(500.0 * Multiplier(k))
  }

  /** The multipliers are exact, so truncation loses nothing: the scores
      are 100/500, 150/750, 450/2250, 600/3000 and 1000/5000. */
  lemma KillScores()
    ensures KillScore(BaseLevel) == 100 && SpecialKillScore(BaseLevel) == 500
    ensures KillScore(Level1) == 100 && SpecialKillScore(Level1) == 500
    ensures KillScore(Level2) == 150 && SpecialKillScore(Level2) == 750
    ensures KillScore(Level3) == 450 && SpecialKillScore(Level3) == 2250
    ensures KillScore(Level4) == 600 && SpecialKillScore(Level4) == 3000
    ensures KillScore(Level5) == 1000 && SpecialKillScore(Level5) == 5000
    ensures forall k :: SpecialKillScore(k) == 5 * KillScore(k)
  {
    forall k: LevelKind ensures SpecialKillScore(k) == 5 * KillScore(k) {
      match k
      case BaseLevel =>
      case Level1 =>
      case Level2 =>
      case Level3 =>
      case Level4 =>
      case Level5 =>
    }
  }

  const Rightward: (real, real) := (2.0, 0.0)
  const Leftward: (real, real) := (-2.0, 0.0)

  /** The power-up carried by the special ship at column `x` of Level 4's
      bottom row. */
  function BottomKind(x: int): PowerupType {
    if x == 160 || x == 640 then Speed else if x == 340 then Power else GhostBullets
  }

  /** A ship carrying a power-up of kind `t`: 3 hit points, the level's
      special kill score, moving right. */
  function Special(k: LevelKind, x: int, y: int, t: PowerupType): EnemySpec {
    EnemySpec(EnemySpecial, x, y, 3, SpecialKillScore(k), Rightward, Some(t))
  }

  /** The ship the row loops of level `k` place in row `r` (100 pixels per
      row) at column `x`. */
  function Slot(k: LevelKind, r: int, x: int): (s: EnemySpec)
    requires HasRows(k)
    ensures s.x == x && s.y == 100 * r
  {
    var kill := KillScore(k);
    match k
    case Level1 =>
      EnemySpec(Enemy1, x, 100 * r, 1, kill, if r == 1 then Leftward else Rightward, None)
    case Level2 =>
      if r == 0 then EnemySpec(Enemy2, x, 0, 3, kill * 3, Rightward, None)
      else EnemySpec(Enemy1, x, 100 * r, 1, kill, if r == 1 || r == 3 then Leftward else Rightward, None)
    case Level3 =>
      if r == 0 then EnemySpec(Enemy3, x, 0, 5, kill * 5, Rightward, None)
      else if r == 1 then EnemySpec(Enemy2, x, 100, 3, kill * 3, Leftward, None)
      else EnemySpec(Enemy1, x, 100 * r, 1, kill, if r == 3 then Leftward else Rightward, None)
    case Level4 =>
      if r < 2 then EnemySpec(Enemy3, x, 100 * r, 5, kill * 5, if r == 0 then Leftward else Rightward, None)
      else if r == 3 && (x == 160 || x == 340 || x == 400 || x == 640) then Special(k, x, 300, BottomKind(x))
      else EnemySpec(Enemy1, x, 100 * r, 1, kill, if r == 2 then Leftward else Rightward, None)
  }

  /** The column of index `c`: x = 100, 160, ..., 700. */
  function Column(c: int): int {
    100 + 60 * c
  }

  /** One row: eleven ships at x = 100, 160, ..., 700. */
  function Row(k: LevelKind, r: int): (s: seq<EnemySpec>)
    requires HasRows(k)
    ensures |s| == 11
  {
    seq(11, c => Slot(k, r, Column(c)))
  }

  /** Rows `a` up to (not including) `b`, top to bottom. */
  function Rows(k: LevelKind, a: int, b: int): (s: seq<EnemySpec>)
    requires HasRows(k)
    decreases b - a
  {
    if b <= a then [] else Rows(k, a, b - 1) + Row(k, b - 1)
  }

  /** The ship the final level adds: the boss, centred, 30 pixels down. */
  function BossSpec(images: Sprite -> Size): EnemySpec {
    EnemySpec(BossShip, Trunc((ScreenWidth - images(BossShip).w) as real / 2.0), 30, 120, 100000, Rightward, None)
  }

  /** The ships each level's `load` adds, in the order it adds them. */
  function Layout(k: LevelKind, images: Sprite -> Size): seq<EnemySpec> {
    match k
    case BaseLevel => []
    case Level1 => Rows(k, 0, 2)
    case Level2 => Rows(k, 0, 4) + [Special(k, 370, 400, Power)]
    case Level3 => Rows(k, 0, 4) + [Special(k, 470, 400, Power), Special(k, 270, 400, Speed)]
    case Level4 => Rows(k, 0, 4)
    case Level5 => [BossSpec(images)]
  }

  /** `Rows` has eleven ships per row. */
  lemma {:induction false} RowsSize(k: LevelKind, a: int, b: int)
    requires HasRows(k) && a <= b
    ensures |Rows(k, a, b)| == 11 * (b - a)
    decreases b - a
  {
    if a < b {
      RowsSize(k, a, b - 1);
    }
  }

  /** Level 1 has 22 ships, Level 2 45, Level 3 46, Level 4 44 and the
      final level only the boss. */
  lemma LayoutSize(images: Sprite -> Size)
    ensures |Layout(BaseLevel, images)| == 0
    ensures |Layout(Level1, images)| == 22
    ensures |Layout(Level2, images)| == 45
    ensures |Layout(Level3, images)| == 46
    ensures |Layout(Level4, images)| == 44
    ensures |Layout(Level5, images)| == 1
  {
    RowsSize(Level1, 0, 2);
    RowsSize(Level2, 0, 4);
    RowsSize(Level3, 0, 4);
    RowsSize(Level4, 0, 4);
  }

  /** Where a ship starts. */
  function Place(s: EnemySpec): (int, int) {
    (s.x, s.y)
  }

  /** No two ships of the list start at the same place. */
  predicate Apart(s: seq<EnemySpec>) {
    forall i, j :: 0 <= i < j < |s| ==> Place(s[i]) != Place(s[j])
  }

  /** Two lists of ships apart from each other and in themselves make one
      list of ships apart. */
  lemma ApartAppend(a: seq<EnemySpec>, b: seq<EnemySpec>)
    requires Apart(a) && Apart(b)
    requires forall i, j :: 0 <= i < |a| && 0 <= j < |b| ==> Place(a[i]) != Place(b[j])
    ensures Apart(a + b)
  {
    forall i, j | 0 <= i < j < |a + b|
      ensures Place((a + b)[i]) != Place((a + b)[j])
    {
      if j < |a| {
        assert (a + b)[i] == a[i] && (a + b)[j] == a[j];
      } else if i < |a| {
        assert (a + b)[i] == a[i] && (a + b)[j] == b[j - |a|];
      } else {
        assert (a + b)[i] == b[i - |a|] && (a + b)[j] == b[j - |a|];
      }
    }
  }

  /** Rows `a` to `b` lie at y = 100·a up to y = 100·(b-1), each ship on a
      column of the window's middle, and no two at the same place. */
  lemma {:induction false} RowsApart(k: LevelKind, a: int, b: int)
    requires HasRows(k)
    ensures Apart(Rows(k, a, b))
    ensures forall s :: s in Rows(k, a, b) ==> 100 * a <= s.y < 100 * b && 100 <= s.x <= 700
    decreases b - a
  {
    if a < b {
      var top := Rows(k, a, b - 1);
      var row := Row(k, b - 1);
      RowsApart(k, a, b - 1);
      assert forall c :: 0 <= c < 11 ==> row[c].y == 100 * (b - 1) && row[c].x == Column(c);
      forall i, j | 0 <= i < |top| && 0 <= j < |row|
        ensures Place(top[i]) != Place(row[j])
      {
        assert top[i] in top;
      }
      ApartAppend(top, row);
      forall s | s in top + row
        ensures 100 * a <= s.y < 100 * b && 100 <= s.x <= 700
      {
        if s !in top {
          var c :| 0 <= c < 11 && row[c] == s;
        }
      }
    }
  }

  /** No two ships of a level start at the same place, and all start
      inside the window's columns 100 to 700 and rows 0 to 400. */
  lemma LayoutApart(k: LevelKind, images: Sprite -> Size)
    requires HasRows(k)
    ensures Apart(Layout(k, images))
    ensures forall s :: s in Layout(k, images) ==> 0 <= s.y <= 400 && 100 <= s.x <= 700
  {
    if k == Level2 || k == Level3 {
      SpecialsApart(k, images);
    } else {
      var n := if k == Level1 then 2 else 4;
      assert Layout(k, images) == Rows(k, 0, n);
      RowsApart(k, 0, n);
    }
  }

  /** `LayoutApart` for the levels with specials below four rows. */
  lemma SpecialsApart(k: LevelKind, images: Sprite -> Size)
    requires k == Level2 || k == Level3
    ensures Apart(Layout(k, images))
    ensures forall s :: s in Layout(k, images) ==> 0 <= s.y <= 400 && 100 <= s.x <= 700
  {
    var rows := Rows(k, 0, 4);
    var specials := if k == Level2 then [Special(k, 370, 400, Power)]
                    else [Special(k, 470, 400, Power), Special(k, 270, 400, Speed)];
    assert Layout(k, images) == rows + specials;
    RowsApart(k, 0, 4);
    forall i, j | 0 <= i < |rows| && 0 <= j < |specials|
      ensures Place(rows[i]) != Place(specials[j])
    {
      assert rows[i] in rows;
    }
    ApartAppend(rows, specials);
  }

  /** How many ships of the list carry a power-up of kind `t`. */
  function Carrying(s: seq<EnemySpec>, t: PowerupType): nat
    decreases |s|
  {
    if s == [] then 0 else Carrying(s[..|s| - 1], t) + if s[|s| - 1].carries == Some(t) then 1 else 0
  }

  /** Counting distributes over concatenation. */
  lemma {:induction false} CarryingAppend(a: seq<EnemySpec>, b: seq<EnemySpec>, t: PowerupType)
    ensures Carrying(a + b, t) == Carrying(a, t) + Carrying(b, t)
    decreases |b|
  {
    if b == [] {
      assert a + b == a;
    } else {
      var b' := b[..|b| - 1];
      assert (a + b)[..|a + b| - 1] == a + b';
      assert (a + b)[|a + b| - 1] == b[|b| - 1];
      CarryingAppend(a, b', t);
    }
  }

  /** A list of ships none of which carries anything carries nothing. */
  lemma {:induction false} CarryingNone(s: seq<EnemySpec>, t: PowerupType)
    requires forall i :: 0 <= i < |s| ==> s[i].carries == None
    ensures Carrying(s, t) == 0
    decreases |s|
  {
    if s != [] {
      CarryingNone(s[..|s| - 1], t);
    }
  }

  /** Ordinary rows carry nothing; only Level 4's bottom row does. */
  lemma {:induction false} RowsCarry(k: LevelKind, a: int, b: int, t: PowerupType)
    requires HasRows(k) && (k == Level4 ==> b <= 3)
    ensures Carrying(Rows(k, a, b), t) == 0
    decreases b - a
  {
    if a < b {
      RowsCarry(k, a, b - 1, t);
      CarryingAppend(Rows(k, a, b - 1), Row(k, b - 1), t);
      CarryingNone(Row(k, b - 1), t);
    }
  }

  /** Counting a list one more ship long. */
  lemma CarryingStep(s: seq<EnemySpec>, c: nat, t: PowerupType)
    requires c < |s|
    ensures Carrying(s[..c + 1], t) == Carrying(s[..c], t) + if s[c].carries == Some(t) then 1 else 0
  {
    assert s[..c + 1][..c] == s[..c];
  }

  /** Level 4's bottom row: specials at x = 160 and 640 (speed), 340 (power)
      and 400 (ghost bullets), ordinary ships everywhere else. */
  lemma BottomCarries(t: PowerupType)
    ensures Carrying(Row(Level4, 3), t) == match t case Speed => 2 case Power => 1 case GhostBullets => 1 case _ => 0
  {
    var row := Row(Level4, 3);
    assert row[..0] == [];
    var c := 0;
    while c < 11
      invariant 0 <= c <= 11
      invariant Carrying(row[..c], t) ==
        (if t == Speed then (if c > 1 then 1 else 0) + (if c > 9 then 1 else 0)
         else if t == Power then (if c > 4 then 1 else 0)
         else if t == GhostBullets then (if c > 5 then 1 else 0)
         else 0)
    {
      CarryingStep(row, c, t);
      c := c + 1;
    }
    assert row[..11] == row;
  }

  /** The power-ups a level hands out: none in Level 1 and the final level,
      one power in Level 2, power and speed in Level 3, and in Level 4 two
      speed, one power and one ghost-bullets. */
  lemma LayoutCarries(images: Sprite -> Size, t: PowerupType)
    ensures Carrying(Layout(Level1, images), t) == 0
    ensures Carrying(Layout(Level2, images), t) == if t == Power then 1 else 0
    ensures Carrying(Layout(Level3, images), t) == if t == Power || t == Speed then 1 else 0
    ensures Carrying(Layout(Level4, images), t) ==
      match t case Speed => 2 case Power => 1 case GhostBullets => 1 case Invincibility => 0
    ensures Carrying(Layout(Level5, images), t) == 0
  {
    FirstLastCarry(images, t);
    SpecialsCarry(images, t);
    FourthCarries(images, t);
  }

  /** `LayoutCarries` for Level 1 and the final level. */
  lemma FirstLastCarry(images: Sprite -> Size, t: PowerupType)
    ensures Carrying(Layout(Level1, images), t) == 0
    ensures Carrying(Layout(Level5, images), t) == 0
  {
    RowsCarry(Level1, 0, 2, t);
    assert [BossSpec(images)][..0] == [];
  }

  /** `LayoutCarries` for Level 4: three plain rows above the bottom row. */
  lemma FourthCarries(images: Sprite -> Size, t: PowerupType)
    ensures Carrying(Layout(Level4, images), t) ==
      match t case Speed => 2 case Power => 1 case GhostBullets => 1 case Invincibility => 0
  {
    assert Layout(Level4, images) == Rows(Level4, 0, 3) + Row(Level4, 3);
    RowsCarry(Level4, 0, 3, t);
    CarryingAppend(Rows(Level4, 0, 3), Row(Level4, 3), t);
    BottomCarries(t);
  }

  /** `LayoutCarries` for the two levels whose power-ups ride on specials
      below the rows. */
  lemma SpecialsCarry(images: Sprite -> Size, t: PowerupType)
    ensures Carrying(Layout(Level2, images), t) == if t == Power then 1 else 0
    ensures Carrying(Layout(Level3, images), t) == if t == Power || t == Speed then 1 else 0
  {
    RowsCarry(Level2, 0, 4, t);
    var one := [Special(Level2, 370, 400, Power)];
    CarryingAppend(Rows(Level2, 0, 4), one, t);
    assert one[..0] == [];
    RowsCarry(Level3, 0, 4, t);
    var pair := [Special(Level3, 470, 400, Power), Special(Level3, 270, 400, Speed)];
    CarryingAppend(Rows(Level3, 0, 4), pair, t);
    assert pair[..1] == [pair[0]] && pair[..1][..0] == [];
  }

  /** How a level scores its ships: an ordinary ship is worth the kill score
      per hit point, a ship carrying a power-up has 3 hit points and is
      worth the special kill score; every ship starts moving sideways at 2
      pixels per frame, the carriers to the right. */
  lemma LayoutScores(k: LevelKind, images: Sprite -> Size)
    requires HasRows(k)
    ensures forall s :: s in Layout(k, images) ==>
      && (s.carries == None ==> s.scoreValue == s.healthPoints * KillScore(k) && s.sprite != EnemySpecial)
      && (s.carries != None ==> s.scoreValue == SpecialKillScore(k) && s.healthPoints == 3 && s.sprite == EnemySpecial)
      && (s.speed == Rightward || (s.speed == Leftward && s.carries == None))
  {
    var n := if k == Level1 then 2 else 4;
    RowsScores(k, 0, n);
    assert Layout(k, images) == Rows(k, 0, n) + Layout(k, images)[|Rows(k, 0, n)|..];
  }

  /** `LayoutScores`, row by row. */
  lemma {:induction false} RowsScores(k: LevelKind, a: int, b: int)
    requires HasRows(k)
    ensures forall s :: s in Rows(k, a, b) ==>
      && (s.carries == None ==> s.scoreValue == s.healthPoints * KillScore(k) && s.sprite != EnemySpecial)
      && (s.carries != None ==> s.scoreValue == SpecialKillScore(k) && s.healthPoints == 3 && s.sprite == EnemySpecial)
      && (s.speed == Rightward || (s.speed == Leftward && s.carries == None))
    decreases b - a
  {
    if a < b {
      RowsScores(k, a, b - 1);
      forall s | s in Row(k, b - 1)
        ensures s.carries == None ==> s.scoreValue == s.healthPoints * KillScore(k) && s.sprite != EnemySpecial
        ensures s.carries != None ==> s.scoreValue == SpecialKillScore(k) && s.healthPoints == 3 && s.sprite == EnemySpecial
        ensures s.speed == Rightward || (s.speed == Leftward && s.carries == None)
      {
        var c :| 0 <= c < 11 && Row(k, b - 1)[c] == s;
      }
    }
  }

  /** A level and the object lists its `load` fills (the `gameObjects`
      dictionary: the player slot, the enemy, projectile and power-up
      lists, and the boss slot the final level adds). */
  class Level {
    const kind: LevelKind
    const killScore: real
    const specialKillScore: real
    const rowHeight: int := 100
    var player: Player?
    var enemies: seq<Enemy>
    var playerProjectiles: seq<Projectile>
    var bossProjectiles: seq<BossProjectile>
    var powerups: seq<Powerup>
    var boss: Boss?

    /** The kill scores are 100 and 500 times the level's multiplier. */
    ghost predicate Valid() {
      killScore == 100.0 * Multiplier(kind) && specialKillScore == 500.0 * Multiplier(kind)
    }

    /** A level with empty lists, no player and no boss. */
    constructor (kind: LevelKind)
      ensures this.kind == kind && Valid()
      ensures player == null && boss == null
      ensures enemies == [] && playerProjectiles == [] && bossProjectiles == [] && powerups == []
    {
      this.kind := kind;
      killScore := 100.0 * Multiplier(kind);
      specialKillScore := 500.0 * Multiplier(kind);
      player := null;
      enemies := [];
      playerProjectiles := [];
      bossProjectiles := [];
      powerups := [];
      boss := null;
    }

    /** Put a new player in its slot and add the level's ships, the boss
        and its slot in the final level; the other lists are left alone. */
    method Load(images: Sprite -> Size)
      requires Valid()
      modifies this
      ensures fresh(player) && player.Valid() && player.activePowerups == []
      ensures player.loadout == Equip({}) && player.speedX == 0.0 && player.speedY == 0.0
      ensures player.body == Body(Rect(370, 565, images(PlayerShip).w, images(PlayerShip).h), 0.0, 0.0)
      ensures playerProjectiles == old(playerProjectiles) && bossProjectiles == old(bossProjectiles)
      ensures powerups == old(powerups)
      ensures |old(enemies)| <= |enemies| && enemies[..|old(enemies)|] == old(enemies)
      ensures forall e :: e in enemies[|old(enemies)|..] ==> fresh(e)
      ensures Specs(enemies[|old(enemies)|..]) == Layout(kind, images)
      ensures kind == Level5 ==> fresh(boss) && enemies[|old(enemies)|..] == [boss.enemy]
      ensures kind == Level5 ==>
        && boss.Valid() && boss.currentPhase == 0 && boss.phaseDuration == 300
        && boss.shootingCooldown == 0 && boss.spawnCooldown == 150 && boss.speed == 1.5
        && boss.projectileSpeed == 2 && boss.shootingSpeed == 60
      ensures kind != Level5 ==> boss == old(boss)
    {
      player := new Player(images);
      match kind
      case BaseLevel =>
        assert enemies[|old(enemies)|..] == [];
      case Level1 =>
        AddRows(images, 0, 2);
      case Level2 =>
        LoadLevel2(images);
      case Level3 =>
        LoadLevel3(images);
      case Level4 =>
        AddRows(images, 0, 4);
      case Level5 =>
        var b := new Boss(images);
        enemies := enemies + [b.enemy];
        boss := b;
        assert enemies[|old(enemies)|..] == [b.enemy];
        SpecsOfFew([b.enemy]);
    }

    /** Level 2: a first row of its own, three more rows, one special. */
    method LoadLevel2(images: Sprite -> Size)
      requires Valid() && kind == Level2
      modifies this`enemies
      ensures |old(enemies)| <= |enemies| && enemies[..|old(enemies)|] == old(enemies)
      ensures forall e :: e in enemies[|old(enemies)|..] ==> fresh(e)
      ensures Specs(enemies[|old(enemies)|..]) == Layout(kind, images)
    {
      ghost var e0 := enemies;
      LoadRows2(images);
      ghost var e1 := enemies;
      AddSpecial(images, 370, 400, Power);
      Chain(e0, e1, enemies);
    }
    method LoadRows2(images: Sprite -> Size)
      requires Valid() && kind == Level2
      modifies this`enemies
      ensures |old(enemies)| <= |enemies| && enemies[..|old(enemies)|] == old(enemies)
      ensures forall e :: e in enemies[|old(enemies)|..] ==> fresh(e)
      ensures Specs(enemies[|old(enemies)|..]) == Rows(kind, 0, 4)
    {
      ghost var e0 := enemies;
      AddRow(images, 0);
      ghost var e1 := enemies;
      AddRows(images, 1, 4);
      Chain(e0, e1, enemies);
      RowsSplit(kind, 0, 1, 4);
    }

    /** Level 3: two rows of their own, two more rows, two specials. */
    method LoadLevel3(images: Sprite -> Size)
      requires Valid() && kind == Level3
      modifies this`enemies
      ensures |old(enemies)| <= |enemies| && enemies[..|old(enemies)|] == old(enemies)
      ensures forall e :: e in enemies[|old(enemies)|..] ==> fresh(e)
      ensures Specs(enemies[|old(enemies)|..]) == Layout(kind, images)
    {
      ghost var e0 := enemies;
      LoadRows3(images);
      ghost var e1 := enemies;
      AddSpecial(images, 470, 400, Power);
      Chain(e0, e1, enemies);
      ghost var e2 := enemies;
      AddSpecial(images, 270, 400, Speed);
      Chain(e0, e2, enemies);
    }

    /** Level 3's rows: two of their own, then a loop over two more. */
    method LoadRows3(images: Sprite -> Size)
      requires Valid() && kind == Level3
      modifies this`enemies
      ensures |old(enemies)| <= |enemies| && enemies[..|old(enemies)|] == old(enemies)
      ensures forall e :: e in enemies[|old(enemies)|..] ==> fresh(e)
      ensures Specs(enemies[|old(enemies)|..]) == Rows(kind, 0, 4)
    {
      ghost var e0 := enemies;
      TopRows3(images);
      ghost var e1 := enemies;
      AddRows(images, 2, 4);
      Chain(e0, e1, enemies);
      RowsSplit(kind, 0, 2, 4);
    }

    /** Level 3's first two rows, each with a loop of its own. */
    method TopRows3(images: Sprite -> Size)
      requires Valid() && kind == Level3
      modifies this`enemies
      ensures |old(enemies)| <= |enemies| && enemies[..|old(enemies)|] == old(enemies)
      ensures forall e :: e in enemies[|old(enemies)|..] ==> fresh(e)
      ensures Specs(enemies[|old(enemies)|..]) == Rows(kind, 0, 2)
    {
      ghost var e0 := enemies;
      AddRow(images, 0);
      ghost var e1 := enemies;
      AddRow(images, 1);
      Chain(e0, e1, enemies);
      RowsSplit(kind, 0, 1, 2);
    }

    /** The outer row loop: rows `a` up to `b`. */
    method AddRows(images: Sprite -> Size, a: int, b: int)
      requires Valid() && HasRows(kind) && a <= b
      modifies this`enemies
      ensures |old(enemies)| <= |enemies| && enemies[..|old(enemies)|] == old(enemies)
      ensures forall e :: e in enemies[|old(enemies)|..] ==> fresh(e)
      ensures Specs(enemies[|old(enemies)|..]) == Rows(kind, a, b)
    {
      ghost var e0 := enemies;
      var r := a;
      while r < b
        invariant a <= r <= b
        invariant |e0| <= |enemies| && enemies[..|e0|] == e0
        invariant forall e :: e in enemies[|e0|..] ==> fresh(e)
        invariant Specs(enemies[|e0|..]) == Rows(kind, a, r)
      {
        ghost var e1 := enemies;
        AddRow(images, r);
        Chain(e0, e1, enemies);
        r := r + 1;
      }
    }

    /** The column loop of row `r`: x = 100, 160, ..., 700. */
    method AddRow(images: Sprite -> Size, r: int)
      requires Valid() && HasRows(kind)
      modifies this`enemies
      ensures |old(enemies)| <= |enemies| && enemies[..|old(enemies)|] == old(enemies)
      ensures forall e :: e in enemies[|old(enemies)|..] ==> fresh(e)
      ensures Specs(enemies[|old(enemies)|..]) == Row(kind, r)
    {
      ghost var e0 := enemies;
      ghost var c := 0;
      var i := 100;
      while i < 701
        invariant 0 <= c <= 11 && i == Column(c)
        invariant |enemies| == |e0| + c && enemies[..|e0|] == e0
        invariant forall e :: e in enemies[|e0|..] ==> fresh(e)
        invariant Specs(enemies[|e0|..]) == Row(kind, r)[..c]
      {
        ghost var e1 := enemies;
        var e := Spawn(images, r, i);
        enemies := enemies + [e];
        Chain(e0, e1, enemies);
        assert enemies[|e1|..] == [e];
        SpecsOfFew([e]);
        assert Row(kind, r)[..c + 1] == Row(kind, r)[..c] + [Row(kind, r)[c]];
        i := i + 60;
        c := c + 1;
      }
    }

    /** The ship of row `r` at column `x`, as each level's loop body makes
        it. */
    method Spawn(images: Sprite -> Size, r: int, x: int) returns (e: Enemy)
      requires Valid() && HasRows(kind)
      ensures fresh(e) && e.Snapshot() == Slot(kind, r, x)
    {
      var kill := Trunc(killScore);
      match kind
      case Level1 =>
        e := new Enemy(images, Enemy1, x, r * rowHeight, scoreValue := kill);
        if r == 1 {
          e := e.SetSpeed(Leftward);
        }
      case Level2 =>
        if r == 0 {
          e := new Enemy(images, Enemy2, x, 0, healthPoints := 3, scoreValue := kill * 3);
        } else {
          e := new Enemy(images, Enemy1, x, r * rowHeight, scoreValue := kill);
          if r == 1 || r == 3 {
            e := e.SetSpeed(Leftward);
          }
        }
      case Level3 =>
        if r == 0 {
          e := new Enemy(images, Enemy3, x, 0, healthPoints := 5, scoreValue := kill * 5);
        } else if r == 1 {
          e := new Enemy(images, Enemy2, x, 100, healthPoints := 3, scoreValue := kill * 3);
          e := e.SetSpeed(Leftward);
        } else {
          e := new Enemy(images, Enemy1, x, r * rowHeight, scoreValue := kill);
          if r == 3 {
            e := e.SetSpeed(Leftward);
          }
        }
      case Level4 =>
        if r < 2 {
          e := new Enemy(images, Enemy3, x, r * rowHeight, healthPoints := 5, scoreValue := kill * 5);
          if r == 0 {
            e := e.SetSpeed(Leftward);
          }
        } else if r == 3 && (x == 160 || x == 340 || x == 400 || x == 640) {
          var p: Powerup? := null;
          if x == 160 || x == 640 {
            p := new Powerup(images, Speed);
          } else if x == 340 {
            p := new Powerup(images, Power);
          } else if x == 400 {
            p := new Powerup(images, GhostBullets);
          }
          e := new Enemy(images, EnemySpecial, x, r * rowHeight, healthPoints := 3, powerup := p,
                         scoreValue := Trunc(specialKillScore));
        } else {
          e := new Enemy(images, Enemy1, x, r * rowHeight, scoreValue := kill);
          if r == 2 {
            e := e.SetSpeed(Leftward);
          }
        }
    }

    /** A ship carrying a new power-up of kind `t` at `(x, y)`. */
    method AddSpecial(images: Sprite -> Size, x: int, y: int, t: PowerupType)
      requires Valid()
      modifies this`enemies
      ensures |old(enemies)| <= |enemies| && enemies[..|old(enemies)|] == old(enemies)
      ensures forall e :: e in enemies[|old(enemies)|..] ==> fresh(e)
      ensures Specs(enemies[|old(enemies)|..]) == [Special(kind, x, y, t)]
    {
      var p := new Powerup(images, t);
      var e := new Enemy(images, EnemySpecial, x, y, healthPoints := 3, powerup := p,
                         scoreValue := Trunc(specialKillScore));
      enemies := enemies + [e];
      assert enemies[|old(enemies)|..] == [e];
      SpecsOfFew([e]);
    }
  }

  /** Rows `a` to `c` are rows `a` to `b` followed by rows `b` to `c`. */
  lemma {:induction false} RowsSplit(k: LevelKind, a: int, b: int, c: int)
    requires HasRows(k) && a <= b <= c
    ensures Rows(k, a, c) == Rows(k, a, b) + Rows(k, b, c)
    decreases c - b
  {
    if b < c {
      RowsSplit(k, a, b, c - 1);
    }
  }

  /** Two appends in a row: what the second list adds to the first, it adds
      after what the first added to `e0`. */
  lemma Chain(e0: seq<Enemy>, e1: seq<Enemy>, e2: seq<Enemy>)
    requires |e0| <= |e1| && e1[..|e0|] == e0
    requires |e1| <= |e2| && e2[..|e1|] == e1
    ensures e2[..|e0|] == e0 && e2[|e0|..] == e1[|e0|..] + e2[|e1|..]
    ensures Specs(e2[|e0|..]) == Specs(e1[|e0|..]) + Specs(e2[|e1|..])
  {
    assert e2[|e0|..] == e1[|e0|..] + e2[|e1|..];
    SpecsAppend(e1[|e0|..], e2[|e1|..]);
  }
}
