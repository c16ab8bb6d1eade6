/** Buildings and the light field: ambient light plus a Chebyshev-distance
    falloff around every lit building, clamped to 1.0. Light values are exact
    reals, an idealisation of the game's floating-point arithmetic. */
module Lighting {
  import opened Terrain

  datatype Building = Building(kind: string, lightRange: int)

  const Campfire: string := "Lagerfeuer"
  const CampfireRange: int := 4
  const AmbientLight: real := 0.3
  const LightStrength: real := 0.7

  /** The building record place_building stores for a building type: only
      a campfire gives light. */
  function NewBuilding(kind: string): (b: Building)
    ensures b.kind == kind
    ensures b.lightRange >= 0
    ensures b.lightRange > 0 <==> kind == Campfire
    ensures kind == Campfire ==> b.lightRange == CampfireRange
  {
    Building(kind, if kind == Campfire then CampfireRange else 0)
  }

  /** place_building on values: the building is stored, replacing any
      earlier one at the same coordinate, exactly when the position is walkable. */
  function Place(tiles: map<Coord, Tile>, buildings: map<Coord, Building>,
                 x: int, y: int, kind: string): (r: map<Coord, Building>)
    ensures IsValidPosition(tiles, x, y) ==>
              r.Keys == buildings.Keys + {(x, y)} && r[(x, y)] == NewBuilding(kind)
    ensures !IsValidPosition(tiles, x, y) ==> r == buildings
    ensures forall p :: p in buildings && p != (x, y) ==> p in r && r[p] == buildings[p]
  {
    if IsValidPosition(tiles, x, y) then buildings[(x, y) := NewBuilding(kind)] else buildings
  }

  /** An uncollected non-Gras tile never receives a building. */
  lemma PlaceRejectsBlockedTile(tiles: map<Coord, Tile>, buildings: map<Coord, Building>,
                                x: int, y: int, kind: string)
    requires (x, y) in tiles && !tiles[(x, y)].collected && tiles[(x, y)].material != Gras
    ensures Place(tiles, buildings, x, y, kind) == buildings
  {
  }

  function Abs(a: int): (r: nat)
    ensures r == a || r == -a
  {
    if a < 0 then -a else a
  }

  /** Chebyshev distance max(|x - px|, |y - py|). */
  function Chebyshev(x: int, y: int, px: int, py: int): (d: nat)
    ensures d >= Abs(x - px) && d >= Abs(y - py)
    ensures d == Abs(x - px) || d == Abs(y - py)
  {
    if Abs(x - px) >= Abs(y - py) then Abs(x - px) else Abs(y - py)
  }

  /** The light a building at `p` adds at (x, y) before clamping. */
  function Contribution(b: Building, p: Coord, x: int, y: int): (c: real)
    ensures 0.0 <= c <= LightStrength
    ensures c > 0.0 ==> b.lightRange > 0 && Chebyshev(x, y, p.0, p.1) < b.lightRange
    ensures b.lightRange > 0 && p == (x, y) ==> c == LightStrength
  {
    if b.lightRange > 0 && Chebyshev(x, y, p.0, p.1) <= b.lightRange then
      var d := Chebyshev(x, y, p.0, p.1);
      DivAtMostOne(d, b.lightRange);
      (1.0 - (d as real) / (b.lightRange as real)) * LightStrength
    else
      0.0
  }

  lemma DivAtMostOne(d: nat, r: int)
    requires 0 < r && d <= r
    ensures 0.0 <= (d as real) / (r as real) <= 1.0
    ensures d < r ==> (d as real) / (r as real) < 1.0
    ensures d == r ==> (d as real) / (r as real) == 1.0
  {
    var q, rr := (d as real) / (r as real), r as real;
    assert q * rr == d as real;
    if q < 0.0 {
      MulStrictlyMonotone(q, 0.0, rr);
    } else if q > 1.0 {
      MulStrictlyMonotone(1.0, q, rr);
    } else if q < 1.0 && d == r {
      MulStrictlyMonotone(q, 1.0, rr);
    }
  }

  lemma MulStrictlyMonotone(a: real, b: real, r: real)
    requires 0.0 < r && a < b
    ensures a * r < b * r
  {
    assert b * r - a * r == (b - a) * r;
  }

  lemma DivStrictlyMonotone(a: real, b: real, r: real)
    requires 0.0 < r && a < b
    ensures a / r < b / r
  {
    var qa, qb := a / r, b / r;
    assert qa * r == a;
    assert qb * r == b;
    if qb <= qa {
      MulMonotone(qb, qa, r);
    }
  }

  lemma MulMonotone(a: real, b: real, r: real)
    requires 0.0 < r && a <= b
    ensures a * r <= b * r
  {
    assert b * r - a * r == (b - a) * r;
  }

  /** Inside the radius the falloff strictly decreases with distance. */
  lemma {:induction false} ContributionDecreases(b: Building, p: Coord, x1: int, y1: int, x2: int, y2: int)
    requires b.lightRange > 0
    requires Chebyshev(x1, y1, p.0, p.1) < Chebyshev(x2, y2, p.0, p.1) <= b.lightRange
    ensures Contribution(b, p, x1, y1) > Contribution(b, p, x2, y2)
  {
    var d1, d2, r := Chebyshev(x1, y1, p.0, p.1) as real, Chebyshev(x2, y2, p.0, p.1) as real, b.lightRange as real;
    DivStrictlyMonotone(d1, d2, r);
  }

  /** The sum of the contributions of the buildings at `keys`. Python walks
      the buildings in insertion order; the sum does not depend on it. */
  ghost function LightSum(bs: map<Coord, Building>, keys: set<Coord>, x: int, y: int): (s: real)
    requires keys <= bs.Keys
    ensures s >= 0.0
    decreases keys
  {
    if keys == {} then 0.0
    else
      var p :| p in keys;
      Contribution(bs[p], p, x, y) + LightSum(bs, keys - {p}, x, y)
  }

  function Min(a: real, b: real): real
  {
    if a <= b then a else b
  }

  /** get_light_level: the clamped total; always between the ambient light and 1.0. */
  ghost function LightLevel(bs: map<Coord, Building>, x: int, y: int): (l: real)
    ensures AmbientLight <= l <= 1.0
  {
    Min(1.0, AmbientLight + LightSum(bs, bs.Keys, x, y))
  }

  /** Any building can be taken out of the sum first. */
  lemma {:induction false} LightSumRemove(bs: map<Coord, Building>, keys: set<Coord>, p: Coord, x: int, y: int)
    requires keys <= bs.Keys && p in keys
    ensures LightSum(bs, keys, x, y) == Contribution(bs[p], p, x, y) + LightSum(bs, keys - {p}, x, y)
    decreases keys
  {
    var q :| q in keys && LightSum(bs, keys, x, y) == Contribution(bs[q], q, x, y) + LightSum(bs, keys - {q}, x, y);
    if q != p {
      LightSumRemove(bs, keys - {q}, p, x, y);
      LightSumRemove(bs, keys - {p}, q, x, y);
      assert keys - {q} - {p} == keys - {p} - {q};
    }
  }

  /** Buildings that contribute nothing leave the sum at zero. */
  lemma {:induction false} LightSumZero(bs: map<Coord, Building>, keys: set<Coord>, x: int, y: int)
    requires keys <= bs.Keys
    requires forall p :: p in keys ==> Contribution(bs[p], p, x, y) == 0.0
    ensures LightSum(bs, keys, x, y) == 0.0
    decreases keys
  {
    if keys != {} {
      var p :| p in keys;
      LightSumRemove(bs, keys, p, x, y);
      LightSumZero(bs, keys - {p}, x, y);
    }
  }

  /** With no lit building within range, the light is exactly the ambient light. */
  lemma OnlyAmbientWhenNothingInRange(bs: map<Coord, Building>, x: int, y: int)
    requires forall p :: p in bs ==> bs[p].lightRange <= 0 || Chebyshev(x, y, p.0, p.1) > bs[p].lightRange
    ensures LightLevel(bs, x, y) == AmbientLight
  {
    LightSumZero(bs, bs.Keys, x, y);
  }

  /** A building in range adds its falloff to the total before the clamp. */
  lemma BuildingAddsFalloff(bs: map<Coord, Building>, p: Coord, x: int, y: int)
    requires p in bs && bs[p].lightRange > 0
    requires Chebyshev(x, y, p.0, p.1) <= bs[p].lightRange
    ensures var d := Chebyshev(x, y, p.0, p.1) as real;
            var r := bs[p].lightRange as real;
            LightLevel(bs, x, y) ==
              Min(1.0, AmbientLight + (1.0 - d / r) * LightStrength + LightSum(bs, bs.Keys - {p}, x, y))
  {
    LightSumRemove(bs, bs.Keys, p, x, y);
  }

  /** A single campfire at (10, 10): full light on it, 0.65 two tiles away,
      ambient light at its radius. */
  lemma SingleCampfire()
    ensures var bs := map[(10, 10) := NewBuilding(Campfire)];
            LightLevel(bs, 10, 10) == 1.0 && LightLevel(bs, 12, 10) == 0.65 &&
            LightLevel(bs, 14, 10) == AmbientLight
  {
    var bs := map[(10, 10) := NewBuilding(Campfire)];
    assert bs.Keys - {(10, 10)} == {};
    LightSumRemove(bs, bs.Keys, (10, 10), 10, 10);
    LightSumRemove(bs, bs.Keys, (10, 10), 12, 10);
    LightSumRemove(bs, bs.Keys, (10, 10), 14, 10);
  }
}
