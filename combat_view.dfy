/** The pseudo-3D combat view: the free-flying camera and its key set, the
    pinhole projection, the painter's-algorithm draw list, the decisions the
    soldier painter takes, and the seeding of the two soldiers. Positions are
    exact reals; `Math.cos`/`Math.sin` of the camera angles are passed in. */
module CombatView {
  import opened Wrappers
  import opened Units
  import Text

  // ---------------------------------------------------------------- camera

  datatype CameraMode = First | Third

  datatype Camera = Camera(x: real, y: real, z: real, angleX: real, angleY: real, mode: CameraMode)

  /** The camera the view starts with: third person, raised and pulled back. */
  const InitialCamera: Camera := Camera(0.0, 5.0, -10.0, 0.0, 0.0, Third)

  /** Translation per tick and rotation (radians) per tick. */
  const Speed: real := 0.1
  const RotSpeed: real := 0.02

  /** The (y, z) preset a mode is entered with. */
  predicate AtPreset(c: Camera)
  {
    if c.mode == Third then c.y == 5.0 && c.z == -10.0 else c.y == 1.7 && c.z == -2.0
  }

  /** `toggleCameraMode`: flip the mode and jump to the new mode's preset. */
  function Toggled(c: Camera): (r: Camera)
    ensures r.mode != c.mode
    ensures AtPreset(r)
    ensures r.x == c.x && r.angleX == c.angleX && r.angleY == c.angleY
  {
    c.(mode := if c.mode == First then Third else First,
       y := if c.mode == First then 5.0 else 1.7,
       z := if c.mode == First then -10.0 else -2.0)
  }

  /** Two toggles give back the mode, and the whole camera when it stood at
      its mode's preset (as the initial camera does). */
  lemma ToggleTwice(c: Camera)
    ensures Toggled(Toggled(c)).mode == c.mode
    ensures AtPreset(c) ==> Toggled(Toggled(c)) == c
  {
  }

  /** 1 when the key is held, 0 otherwise. */
  function Held(keys: set<string>, k: string): real
  {
    if k in keys then 1.0 else 0.0
  }

  /** One `if (keys.has(k)) v += delta` of `updateCamera`. */
  function Step(v: real, held: bool, delta: real): real
  {
    if held then v + delta else v
  }

  /** `updateCamera`: nothing at all when no key is held; otherwise each held
      motion key adds its step to one coordinate and each held arrow key its
      step to one angle. `w`/`s` move along z, `d`/`a` along x, `q`/`e` along
      y; right/left turn angleY, down/up turn angleX. */
  function Advanced(c: Camera, keys: set<string>): (r: Camera)
    ensures keys == {} ==> r == c
    ensures r.mode == c.mode
    ensures keys != {} ==>
      && r.z == c.z + Speed * (Held(keys, "w") - Held(keys, "s"))
      && r.x == c.x + Speed * (Held(keys, "d") - Held(keys, "a"))
      && r.y == c.y + Speed * (Held(keys, "q") - Held(keys, "e"))
      && r.angleY == c.angleY + RotSpeed * (Held(keys, "arrowright") - Held(keys, "arrowleft"))
      && r.angleX == c.angleX + RotSpeed * (Held(keys, "arrowdown") - Held(keys, "arrowup"))
  {
    if |keys| == 0 then c
    else
      c.(z := Step(Step(c.z, "w" in keys, Speed), "s" in keys, -Speed),
         x := Step(Step(c.x, "a" in keys, -Speed), "d" in keys, Speed),
         y := Step(Step(c.y, "q" in keys, Speed), "e" in keys, -Speed),
         angleY := Step(Step(c.angleY, "arrowleft" in keys, -RotSpeed), "arrowright" in keys, RotSpeed),
         angleX := Step(Step(c.angleX, "arrowup" in keys, -RotSpeed), "arrowdown" in keys, RotSpeed))
  }

  /** The keys `updateCamera` looks at. */
  predicate ControlKey(k: string)
  {
    k in {"w", "s", "a", "d", "q", "e", "arrowleft", "arrowright", "arrowup", "arrowdown"}
  }

  /** Pairs of keys whose steps undo each other. */
  predicate OppositeKeys(k1: string, k2: string)
  {
    (k1, k2) in {("w", "s"), ("a", "d"), ("q", "e"), ("arrowleft", "arrowright"), ("arrowup", "arrowdown")}
  }

  /** Holding both keys of an opposite pair is the same as holding neither. */
  lemma OppositeKeysCancel(c: Camera, keys: set<string>, k1: string, k2: string)
    requires OppositeKeys(k1, k2)
    ensures Advanced(c, keys + {k1, k2}) == Advanced(c, keys - {k1, k2})
  {
    var with, without := keys + {k1, k2}, keys - {k1, k2};
    var r1, r2 := Advanced(c, with), Advanced(c, without);
    if without == {} {
      assert with == {k1, k2};
    }
    assert r1.x == r2.x && r1.y == r2.y && r1.z == r2.z;
    assert r1.angleX == r2.angleX && r1.angleY == r2.angleY;
  }

  /** A key `updateCamera` does not look at has no effect. */
  lemma OtherKeyIgnored(c: Camera, keys: set<string>, k: string)
    requires !ControlKey(k)
    ensures Advanced(c, keys + {k}) == Advanced(c, keys - {k})
  {
    var with, without := keys + {k}, keys - {k};
    var r1, r2 := Advanced(c, with), Advanced(c, without);
    if without == {} {
      assert with == {k};
    }
    assert Held(with, "w") == Held(without, "w") && Held(with, "s") == Held(without, "s");
    assert Held(with, "a") == Held(without, "a") && Held(with, "d") == Held(without, "d");
    assert Held(with, "q") == Held(without, "q") && Held(with, "e") == Held(without, "e");
    assert Held(with, "arrowleft") == Held(without, "arrowleft");
    assert Held(with, "arrowright") == Held(without, "arrowright");
    assert Held(with, "arrowup") == Held(without, "arrowup");
    assert Held(with, "arrowdown") == Held(without, "arrowdown");
  }

  /** The camera after `n` frames with the same keys held. */
  function AdvancedTicks(c: Camera, keys: set<string>, n: nat): Camera
  {
    if n == 0 then c else Advanced(AdvancedTicks(c, keys, n - 1), keys)
  }

  /** Holding `w` for `n` frames moves the camera forward by exactly
      `n * Speed` and changes nothing else. */
  lemma {:induction false} HoldForward(c: Camera, n: nat)
    ensures AdvancedTicks(c, {"w"}, n) == c.(z := c.z + (n as real) * Speed)
  {
    if n > 0 {
      HoldForward(c, n - 1);
      var prev := AdvancedTicks(c, {"w"}, n - 1);
      assert Held({"w"}, "s") == 0.0 && Held({"w"}, "a") == 0.0 && Held({"w"}, "d") == 0.0;
      assert Held({"w"}, "q") == 0.0 && Held({"w"}, "e") == 0.0;
      assert Held({"w"}, "arrowleft") == 0.0 && Held({"w"}, "arrowright") == 0.0;
      assert Held({"w"}, "arrowup") == 0.0 && Held({"w"}, "arrowdown") == 0.0;
      assert Advanced(prev, {"w"}) == prev.(z := prev.z + Speed);
    }
  }

  // ------------------------------------------------------------ projection

  datatype Point3 = Point3(x: real, y: real, z: real)

  /** `Math.cos`/`Math.sin` of the camera's two angles. */
  datatype Trig = Trig(cosY: real, sinY: real, cosX: real, sinX: real)

  datatype Projected = Projected(screenX: real, screenY: real, scale: real, distance: real)

  /** The field-of-view constant and the canvas's fixed logical size. */
  const Fov: real := 500.0
  const CanvasWidth: real := 1200.0
  const CanvasHeight: real := 800.0

  /** The point relative to the camera, turned about the vertical axis. */
  function RotatedX(p: Point3, c: Camera, t: Trig): real
  {
    (p.x - c.x) * t.cosY - (p.z - c.z) * t.sinY
  }

  function RotatedZ(p: Point3, c: Camera, t: Trig): real
  {
    (p.x - c.x) * t.sinY + (p.z - c.z) * t.cosY
  }

  /** ... and then about the horizontal axis. */
  function FinalY(p: Point3, c: Camera, t: Trig): real
  {
    (p.y - c.y) * t.cosX - RotatedZ(p, c, t) * t.sinX
  }

  function FinalZ(p: Point3, c: Camera, t: Trig): real
  {
    (p.y - c.y) * t.sinX + RotatedZ(p, c, t) * t.cosX
  }

  /** `project3D`: nothing for a point at or behind the camera plane;
      otherwise the perspective scale `Fov / depth` (positive), the depth as
      the sorting distance, and a screen position offset from the canvas
      centre by the rotated x and y, each times the scale (y pointing up). */
  function Project3D(p: Point3, c: Camera, t: Trig): (r: Option<Projected>)
    ensures r.None? <==> FinalZ(p, c, t) <= 0.0
    ensures r.Some? ==> r.value.distance == FinalZ(p, c, t) > 0.0
    ensures r.Some? ==> r.value.scale > 0.0 && r.value.scale * r.value.distance == Fov
    ensures r.Some? ==> r.value.screenX == CanvasWidth / 2.0 + RotatedX(p, c, t) * r.value.scale
    ensures r.Some? ==> r.value.screenY == CanvasHeight / 2.0 - FinalY(p, c, t) * r.value.scale
    ensures r.Some? && RotatedX(p, c, t) == 0.0 && FinalY(p, c, t) == 0.0 ==>
              r.value.screenX == CanvasWidth / 2.0 && r.value.screenY == CanvasHeight / 2.0
  {
    var cx := CanvasWidth / 2.0;
    var cy := CanvasHeight / 2.0;
    var rotX := RotatedX(p, c, t);
    var finalY := FinalY(p, c, t);
    var finalZ := FinalZ(p, c, t);
    if finalZ <= 0.0 then None
    else
      assert (rotX * Fov) / finalZ == rotX * (Fov / finalZ);
      assert (finalY * Fov) / finalZ == finalY * (Fov / finalZ);
      Some(Projected(cx + (rotX * Fov) / finalZ, cy - (finalY * Fov) / finalZ, Fov / finalZ, finalZ))
  }

  /** Nearer objects are drawn larger: the scale strictly falls as the
      distance grows. */
  lemma ScaleFallsWithDistance(d1: real, d2: real)
    requires 0.0 < d1 < d2
    ensures Fov / d1 > Fov / d2
  {
    var s1, s2 := Fov / d1, Fov / d2;
    assert s1 * d1 == Fov && s2 * d2 == Fov;
  }

  /** Camera at the origin looking straight ahead: a point ten units ahead
      lands in the centre of the canvas at a tenth of the field of view. */
  lemma StraightAhead()
    ensures Project3D(Point3(0.0, 0.0, 10.0), Camera(0.0, 0.0, 0.0, 0.0, 0.0, Third),
                      Trig(1.0, 0.0, 1.0, 0.0))
            == Some(Projected(600.0, 400.0, 50.0, 10.0))
  {
  }

  // ---------------------------------------------------------------- entities

  datatype SoldierAction = Idle | Walking | Attacking | Defending

  datatype Soldier = Soldier(
    id: string,
    x: real, y: real, z: real,
    health: int, maxHealth: int,
    soldierType: string,
    isPlayerUnit: bool,
    facing: real,
    animationFrame: int,
    action: SoldierAction)

  datatype TerrainKind = Tree | Rock | Building | Wall | Tower

  datatype TerrainFeature = TerrainFeature(kind: TerrainKind, x: real, y: real, z: real, size: real)

  /** The fixed scenery of every combat. */
  const TerrainLayout: seq<TerrainFeature> := [
    TerrainFeature(Tree, -5.0, 0.0, 3.0, 1.5),
    TerrainFeature(Tree, 4.0, 0.0, -2.0, 1.2),
    TerrainFeature(Rock, 0.0, 0.0, 5.0, 0.8),
    TerrainFeature(Building, -8.0, 0.0, -5.0, 2.0),
    TerrainFeature(Wall, 6.0, 0.0, 4.0, 1.0),
    TerrainFeature(Tower, -3.0, 0.0, -8.0, 2.5)
  ]

  /** `Math.PI` (the double closest to pi). */
  const Pi: real := 3.141592653589793

  /** `value || fallback` on a number: 0 is falsy, so it falls back too. */
  function OrNumber(value: Option<int>, fallback: int): (r: int)
    ensures value.Some? && value.value != 0 ==> r == value.value
    ensures value.None? || value.value == 0 ==> r == fallback
  {
    if value.Some? && value.value != 0 then value.value else fallback
  }

  /** `value || fallback` on a string: the empty string is falsy. */
  function OrString(value: Option<string>, fallback: string): (r: string)
    ensures value.Some? && value.value != "" ==> r == value.value
    ensures value.None? || value.value == "" ==> r == fallback
  {
    if value.Some? && value.value != "" then value.value else fallback
  }

  function HealthOf(u: Option<Unit>): Option<int> { if u.Some? then Some(u.value.health) else None }
  function MaxHealthOf(u: Option<Unit>): Option<int> { if u.Some? then Some(u.value.maxHealth) else None }
  function TypeOf(u: Option<Unit>): Option<string> { if u.Some? then Some(u.value.unitType) else None }

  /** The two soldiers the view starts with: the player's two units left of
      the origin facing along +x, the enemy two units right of it facing
      back; health, maximum and type come from the snapshots with the `||`
      fallbacks (100, 100, legionnaire / hastati). */
  function SeedSoldiers(attacker: Option<Unit>, defender: Option<Unit>): (r: seq<Soldier>)
    ensures |r| == 2
    ensures r[0].isPlayerUnit && !r[1].isPlayerUnit
    ensures r[0].x == -2.0 && r[1].x == 2.0 && r[0].y == r[1].y == 0.0 && r[0].z == r[1].z == 0.0
    ensures r[0].facing == 0.0 && r[1].facing - r[0].facing == Pi
    ensures r[0].health == (if attacker.Some? && attacker.value.health != 0 then attacker.value.health else 100)
    ensures r[1].health == (if defender.Some? && defender.value.health != 0 then defender.value.health else 100)
    ensures r[0].maxHealth == (if attacker.Some? && attacker.value.maxHealth != 0 then attacker.value.maxHealth else 100)
    ensures r[1].maxHealth == (if defender.Some? && defender.value.maxHealth != 0 then defender.value.maxHealth else 100)
    ensures r[0].soldierType == (if attacker.Some? && attacker.value.unitType != "" then attacker.value.unitType else "legionnaire")
    ensures r[1].soldierType == (if defender.Some? && defender.value.unitType != "" then defender.value.unitType else "hastati")
    ensures r[0].maxHealth != 0 && r[1].maxHealth != 0
    ensures r[0].action == Idle && r[1].action == Idle
  {
    [ Soldier("player1", -2.0, 0.0, 0.0,
              OrNumber(HealthOf(attacker), 100), OrNumber(MaxHealthOf(attacker), 100),
              OrString(TypeOf(attacker), "legionnaire"), true, 0.0, 0, Idle),
      Soldier("enemy1", 2.0, 0.0, 0.0,
              OrNumber(HealthOf(defender), 100), OrNumber(MaxHealthOf(defender), 100),
              OrString(TypeOf(defender), "hastati"), false, Pi, 0, Idle) ]
  }

  /** A unit that has lost all its health is seeded at full health: the `||`
      fallback cannot tell a zero from a missing value. */
  lemma FallenUnitSeedsAtFullHealth(attacker: Unit)
    requires attacker.health == 0
    ensures SeedSoldiers(Some(attacker), None)[0].health == 100
  {
  }

  // ------------------------------------------------------------ draw list

  /** The draw list holds tagged objects: soldiers and terrain are painted by
      different routines. */
  datatype Entity = SoldierEntity(soldier: Soldier) | TerrainEntity(feature: TerrainFeature)

  datatype SceneObject = SceneObject(entity: Entity, projected: Projected)

  function Position(e: Entity): Point3
  {
    match e
    case SoldierEntity(s) => Point3(s.x, s.y, s.z)
    case TerrainEntity(f) => Point3(f.x, f.y, f.z)
  }

  function SoldierEntities(s: seq<Soldier>): (r: seq<Entity>)
    ensures |r| == |s| && forall i :: 0 <= i < |s| ==> r[i] == SoldierEntity(s[i])
  {
    seq(|s|, i requires 0 <= i < |s| => SoldierEntity(s[i]))
  }

  function TerrainEntities(f: seq<TerrainFeature>): (r: seq<Entity>)
    ensures |r| == |f| && forall i :: 0 <= i < |f| ==> r[i] == TerrainEntity(f[i])
  {
    seq(|f|, i requires 0 <= i < |f| => TerrainEntity(f[i]))
  }

  /** The objects that survive projection, in the order given, each paired
      with its projection. */
  function Visible(es: seq<Entity>, c: Camera, t: Trig): (r: seq<SceneObject>)
    ensures |r| <= |es|
  {
    if es == [] then []
    else
      var init := Visible(es[..|es| - 1], c, t);
      var last := es[|es| - 1];
      match Project3D(Position(last), c, t)
      case None => init
      case Some(p) => init + [SceneObject(last, p)]
  }

  /** Exactly the entities in front of the camera survive projection. */
  lemma {:induction false} VisibleExactly(es: seq<Entity>, c: Camera, t: Trig)
    ensures forall o :: o in Visible(es, c, t) ==>
              o.entity in es && Project3D(Position(o.entity), c, t) == Some(o.projected)
    ensures forall e :: e in es && Project3D(Position(e), c, t).Some? ==>
              SceneObject(e, Project3D(Position(e), c, t).value) in Visible(es, c, t)
  {
    if es != [] {
      var init := es[..|es| - 1];
      VisibleExactly(init, c, t);
      assert es == init + [es[|es| - 1]];
    }
  }

  /** Appending one entity appends its object exactly when it is in front. */
  lemma VisibleSnoc(es: seq<Entity>, e: Entity, c: Camera, t: Trig)
    ensures Visible(es + [e], c, t) ==
            Visible(es, c, t) +
            (match Project3D(Position(e), c, t)
             case None => []
             case Some(p) => [SceneObject(e, p)])
  {
    assert (es + [e])[..|es + [e]| - 1] == es;
  }

  /** Each object occurs in the visible list as often as its entity occurs in
      the input when it is that entity's projection, and never otherwise. */
  lemma {:induction false} VisibleCount(es: seq<Entity>, c: Camera, t: Trig, o: SceneObject)
    ensures multiset(Visible(es, c, t))[o] ==
            if Project3D(Position(o.entity), c, t) == Some(o.projected) then multiset(es)[o.entity] else 0
  {
    if es != [] {
      var init := es[..|es| - 1];
      var last := es[|es| - 1];
      VisibleCount(init, c, t, o);
      assert es == init + [last];
      VisibleSnoc(init, last, c, t);
    }
  }

  /** Farthest first: the painter's-algorithm order. */
  predicate FarthestFirst(s: seq<SceneObject>)
  {
    forall i, j :: 0 <= i < j < |s| ==> s[i].projected.distance >= s[j].projected.distance
  }

  /** Put `o` in front of the first object no farther than it. */
  function Insert(o: SceneObject, s: seq<SceneObject>): (r: seq<SceneObject>)
    ensures multiset(r) == multiset(s) + multiset{o}
  {
    if s == [] then [o]
    else if o.projected.distance >= s[0].projected.distance then [o] + s
    else
      assert s == [s[0]] + s[1..];
      [s[0]] + Insert(o, s[1..])
  }

  /** Every object of `Insert(o, s)` is as near as a common bound `d`. */
  lemma InsertBounded(o: SceneObject, s: seq<SceneObject>, d: real)
    requires o.projected.distance <= d
    requires forall k :: 0 <= k < |s| ==> s[k].projected.distance <= d
    ensures forall k :: 0 <= k < |Insert(o, s)| ==> Insert(o, s)[k].projected.distance <= d
  {
    var r := Insert(o, s);
    forall k | 0 <= k < |r|
      ensures r[k].projected.distance <= d
    {
      assert r[k] in multiset(s) + multiset{o};
      if r[k] != o {
        var m :| 0 <= m < |s| && s[m] == r[k];
      }
    }
  }

  /** Inserting into a farthest-first sequence keeps it farthest first. */
  lemma {:induction false} InsertKeepsOrder(o: SceneObject, s: seq<SceneObject>)
    requires FarthestFirst(s)
    ensures FarthestFirst(Insert(o, s))
  {
    if s != [] && o.projected.distance < s[0].projected.distance {
      var tail := s[1..];
      var d := s[0].projected.distance;
      assert forall k :: 0 <= k < |tail| ==> tail[k] == s[k + 1];
      InsertKeepsOrder(o, tail);
      InsertBounded(o, tail, d);
      var rest := Insert(o, tail);
      var r := [s[0]] + rest;
      assert Insert(o, s) == r;
      assert forall k :: 1 <= k < |r| ==> r[k] == rest[k - 1];
    }
  }

  /** `objects.sort((a, b) => b.projected.distance - a.projected.distance)`:
      the same objects, farthest first. */
  function SortFarthestFirst(s: seq<SceneObject>): (r: seq<SceneObject>)
    ensures multiset(r) == multiset(s)
    ensures FarthestFirst(r)
  {
    if s == [] then []
    else
      assert s == [s[0]] + s[1..];
      var sorted := SortFarthestFirst(s[1..]);
      InsertKeepsOrder(s[0], sorted);
      Insert(s[0], sorted)
  }

  // ------------------------------------------------------- painter decisions

  /** The per-type colour table; an unknown type gets the legionnaire row. */
  datatype Palette = Palette(armor: string, tunic: string, skin: string)

  const LegionnairePalette: Palette := Palette("#8B4513", "#DC143C", "#DDBEA9")

  function PaletteFor(soldierType: string): (p: Palette)
    ensures soldierType !in {"legionnaire", "hastati", "triarii", "archer"} ==> p == LegionnairePalette
    ensures p.skin == "#DDBEA9"
  {
    match soldierType
    case "hastati" => Palette("#4682B4", "#000080", "#DDBEA9")
    case "triarii" => Palette("#800080", "#4B0082", "#DDBEA9")
    case "archer" => Palette("#228B22", "#006400", "#DDBEA9")
    case _ => LegionnairePalette
  }

  /** Archers carry a bow and no shield; everyone else a sword and a shield
      in their side's colour. */
  datatype Weapon = Bow | Sword

  function WeaponFor(soldierType: string): (w: Weapon)
    ensures w == Bow <==> soldierType == "archer"
  {
    if soldierType == "archer" then Bow else Sword
  }

  function ShieldColor(s: Soldier): (r: Option<string>)
    ensures r.None? <==> s.soldierType == "archer"
    ensures r.Some? ==> r.value == (if s.isPlayerUnit then "#DC143C" else "#8B4513")
  {
    if s.soldierType != "archer" then Some(if s.isPlayerUnit then "#DC143C" else "#8B4513") else None
  }

  const HealthGreen: string := "#10b981"
  const HealthAmber: string := "#f59e0b"
  const HealthRed: string := "#ef4444"

  /** The health bar fill colour: green above 60 % of the maximum, amber
      above 30 %, red otherwise. */
  function HealthBarColor(health: int, maxHealth: int): (r: string)
    ensures r == HealthGreen <==> QuotientAbove(health, maxHealth, 0.6)
    ensures r == HealthAmber <==> !QuotientAbove(health, maxHealth, 0.6) && QuotientAbove(health, maxHealth, 0.3)
    ensures r == HealthRed <==> !QuotientAbove(health, maxHealth, 0.3)
  {
    if QuotientAbove(health, maxHealth, 0.6) then HealthGreen
    else if QuotientAbove(health, maxHealth, 0.3) then HealthAmber
    else HealthRed
  }

  /** `Math.max(1, scale * 0.5)`: the sprite's pixel unit. */
  function PixelSize(scale: real): (r: real)
    ensures r >= 1.0 && r >= scale * 0.5
    ensures r == 1.0 || r == scale * 0.5
  {
    if scale * 0.5 > 1.0 then scale * 0.5 else 1.0
  }

  /** The body (and health bar) width: eight pixel units. */
  function BodyWidth(scale: real): (r: real)
    ensures r >= 8.0
    ensures scale <= 2.0 ==> r == 8.0
    ensures scale >= 2.0 ==> r == 4.0 * scale
  {
    8.0 * PixelSize(scale)
  }

  /** The width of the health bar's fill: the bar width times the health
      ratio. There is no clamp, so more health than the maximum overflows
      the bar. */
  function HealthBarFill(scale: real, health: int, maxHealth: int): (w: real)
    requires maxHealth != 0
    ensures w * (maxHealth as real) == BodyWidth(scale) * (health as real)
    ensures 0 <= health <= maxHealth ==> 0.0 <= w <= BodyWidth(scale)
    ensures health == maxHealth ==> w == BodyWidth(scale)
    ensures 0 < maxHealth < health ==> w > BodyWidth(scale)
  {
    var p := Percentage(health, maxHealth);
    assert (p / 100.0) * (maxHealth as real) == (p * (maxHealth as real)) / 100.0;
    BodyWidth(scale) * (p / 100.0)
  }

  /** The band of the unit-information card's bar, which compares against a
      multiple of the maximum instead of dividing. */
  function InfoBarClass(s: Soldier): (r: string)
    ensures r in {"bg-green-500", "bg-yellow-500", "bg-red-500"}
  {
    if (s.health as real) > (s.maxHealth as real) * 0.6 then "bg-green-500"
    else if (s.health as real) > (s.maxHealth as real) * 0.3 then "bg-yellow-500"
    else "bg-red-500"
  }

  /** For a positive maximum the card and the sprite agree on the band. */
  lemma InfoBarMatchesSprite(s: Soldier)
    requires s.maxHealth > 0
    ensures InfoBarClass(s) == "bg-green-500" <==> HealthBarColor(s.health, s.maxHealth) == HealthGreen
    ensures InfoBarClass(s) == "bg-red-500" <==> HealthBarColor(s.health, s.maxHealth) == HealthRed
  {
  }

  // ------------------------------------------------------------ the view

  class View {
    var camera: Camera
    var keys: set<string>
    const soldiers: seq<Soldier>
    const terrain: seq<TerrainFeature>
    /** Whether the frame loop runs (the view is active). */
    var looping: bool
    /** The key set and the camera of the render that started the frame
      loop: the `animate` closure only sees those. */
    var loopKeys: set<string>
    var loopCamera: Camera

    /** Mounting the view: the initial camera, no key held, the two seeded
      soldiers and the fixed scenery; no frame loop until activation. */
    constructor (attacker: Option<Unit>, defender: Option<Unit>)
      ensures camera == InitialCamera && keys == {} && !looping
      ensures soldiers == SeedSoldiers(attacker, defender) && terrain == TerrainLayout
    {
      camera := InitialCamera;
      keys := {};
      soldiers := SeedSoldiers(attacker, defender);
      terrain := TerrainLayout;
      looping := false;
      loopKeys := {};
      loopCamera := InitialCamera;
    }

    /** `isActive` turning true: the effect starts a frame loop whose
      closure captures this render's key set and camera. */
    method Activate()
      requires !looping
      modifies this`looping, this`loopKeys, this`loopCamera
      ensures looping && loopKeys == keys && loopCamera == camera
    {
      looping := true;
      loopKeys := keys;
      loopCamera := camera;
    }

    /** `isActive` turning false: the effect's cleanup cancels the loop. */
    method Deactivate()
      modifies this`looping
      ensures !looping
    {
      looping := false;
    }

    /** `toggleCameraMode` (the button and the `f` key). */
    method ToggleCameraMode()
      modifies this`camera
      ensures camera == Toggled(old(camera))
    {
      camera := Toggled(camera);
    }

    /** `handleKeyDown`: `f` toggles the camera and is not recorded; any
      other key is recorded in lower case. */
    method KeyDown(key: string)
      modifies this`camera, this`keys
      ensures Text.ToLower(key) == "f" ==> camera == Toggled(old(camera)) && keys == old(keys)
      ensures Text.ToLower(key) != "f" ==>
                camera == old(camera) && keys == old(keys) + {Text.ToLower(key)}
    {
      var lower := Text.ToLower(key);
      if lower == "f" {
        ToggleCameraMode();
      } else {
        keys := keys + {lower};
      }
    }

    /** `handleKeyUp`: forget the key, in lower case. */
    method KeyUp(key: string)
      modifies this`keys
      ensures keys == old(keys) - {Text.ToLower(key)}
    {
      keys := keys - {Text.ToLower(key)};
    }

    /** `updateCamera`, once per frame. */
    method UpdateCamera()
      modifies this`camera
      ensures camera == Advanced(old(camera), keys)
    {
      camera := Advanced(camera, keys);
    }

    /** The collect-and-sort part of `render` for the camera `cam`: project
      every soldier, then every terrain feature, keep those in front of the
      camera, and order them farthest first. `trig` holds the cosines and
      sines of the camera's angles. */
    method DrawList(camera: Camera, trig: Trig) returns (drawList: seq<SceneObject>)
      ensures multiset(drawList) ==
              multiset(Visible(SoldierEntities(soldiers) + TerrainEntities(terrain), camera, trig))
      ensures FarthestFirst(drawList)
    {
      var objects: seq<SceneObject> := [];
      var i := 0;
      while i < |soldiers|
        invariant 0 <= i <= |soldiers|
        invariant objects == Visible(SoldierEntities(soldiers[..i]), camera, trig)
      {
        var s := soldiers[i];
        var projected := Project3D(Position(SoldierEntity(s)), camera, trig);
        assert SoldierEntities(soldiers[..i + 1]) == SoldierEntities(soldiers[..i]) + [SoldierEntity(s)];
        VisibleSnoc(SoldierEntities(soldiers[..i]), SoldierEntity(s), camera, trig);
        if projected.Some? {
          objects := objects + [SceneObject(SoldierEntity(s), projected.value)];
        }
        i := i + 1;
      }
      assert soldiers[..i] == soldiers;
      var all := SoldierEntities(soldiers);
      var j := 0;
      assert all + TerrainEntities(terrain[..j]) == all;
      while j < |terrain|
        invariant 0 <= j <= |terrain|
        invariant objects == Visible(all + TerrainEntities(terrain[..j]), camera, trig)
      {
        var f := terrain[j];
        var projected := Project3D(Position(TerrainEntity(f)), camera, trig);
        assert TerrainEntities(terrain[..j + 1]) == TerrainEntities(terrain[..j]) + [TerrainEntity(f)];
        assert all + TerrainEntities(terrain[..j + 1]) == (all + TerrainEntities(terrain[..j])) + [TerrainEntity(f)];
        VisibleSnoc(all + TerrainEntities(terrain[..j]), TerrainEntity(f), camera, trig);
        if projected.Some? {
          objects := objects + [SceneObject(TerrainEntity(f), projected.value)];
        }
        j := j + 1;
      }
      assert terrain[..j] == terrain;
      drawList := SortFarthestFirst(objects);
    }

    /** One frame of `animate` as written: `updateCamera` and `render` are
      the ones of the activation render, so the camera steps by the key set
      captured then, and the canvas shows the camera captured then. */
    method AnimateFrame(trig: Trig) returns (drawList: seq<SceneObject>)
      requires looping
      modifies this`camera
      ensures camera == Advanced(old(camera), loopKeys)
      ensures multiset(drawList) ==
              multiset(Visible(SoldierEntities(soldiers) + TerrainEntities(terrain), loopCamera, trig))
      ensures FarthestFirst(drawList)
    {
      camera := Advanced(camera, loopKeys);
      drawList := DrawList(loopCamera, trig);
    }

    /** The frame as evidently intended: step by the keys held now, then
      draw the camera so reached. */
    method AnimateFrameCorrected(trig: Trig) returns (drawList: seq<SceneObject>)
      requires looping
      modifies this`camera
      ensures camera == Advanced(old(camera), keys)
      ensures multiset(drawList) ==
              multiset(Visible(SoldierEntities(soldiers) + TerrainEntities(terrain), camera, trig))
      ensures FarthestFirst(drawList)
    {
      UpdateCamera();
      drawList := DrawList(camera, trig);
    }
  }

  /** As written, holding `w` after the view opens never moves the camera:
      the loop steps by the empty key set it captured at activation. */
  method HoldForwardAsWritten(trig: Trig, n: nat) returns (cam: Camera)
    ensures cam == InitialCamera
  {
    var v := new View(None, None);
    v.Activate();
    v.KeyDown("w");
    var k := 0;
    while k < n
      invariant 0 <= k <= n
      invariant v.looping && v.loopKeys == {} && v.camera == InitialCamera
    {
      var _ := v.AnimateFrame(trig);
      k := k + 1;
    }
    cam := v.camera;
  }

  /** With the intended frame, `n` frames of `w` move the camera forward by
      `n * Speed`. */
  method HoldForwardCorrected(trig: Trig, n: nat) returns (cam: Camera)
    ensures cam == InitialCamera.(z := InitialCamera.z + (n as real) * Speed)
  {
    var v := new View(None, None);
    v.Activate();
    assert Text.ToLower("w") == "w";
    v.KeyDown("w");
    var k := 0;
    while k < n
      invariant 0 <= k <= n
      invariant v.looping && v.keys == {"w"} && v.camera == AdvancedTicks(InitialCamera, {"w"}, k)
    {
      var _ := v.AnimateFrameCorrected(trig);
      k := k + 1;
    }
    HoldForward(InitialCamera, n);
    cam := v.camera;
  }
}
