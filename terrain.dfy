/** The tile grid of the world: materials, tiles, the ordered classification
    rule list used by generation, and the value-level queries and the harvest
    transition on a tile map keyed by grid coordinate. */
module Terrain {
  import opened Wrappers

  /** The grid is WorldSize x WorldSize tiles. */
  const WorldSize: int := 200

  type Coord = (int, int)

  datatype Material = Gras | Eisen | Kohle | Magnesium | Stein | Wald

  datatype Tile = Tile(material: Material, collected: bool)

  /** The name the game uses for a material (its dictionary string). */
  function MaterialName(m: Material): string
  {
    match m
    case Gras => "Gras"
    case Eisen => "Eisen"
    case Kohle => "Kohle"
    case Magnesium => "Magnesium"
    case Stein => "Stein"
    case Wald => "Wald"
  }

  predicate InBounds(x: int, y: int)
  {
    0 <= x < WorldSize && 0 <= y < WorldSize
  }

  // ---------------------------------------------------------------------------
  // Generation: classification of a noise value

  /** The ordered, first-match-wins rule list. `draw` is the value of the one
      random draw a tile may consume; it is looked at only by rules 5 and 6. */
  function Classify(n: real, draw: real): (m: Material)
    ensures m == Kohle <==> n < -0.3
    ensures m == Stein <==> (-0.3 <= n < -0.1) || n > 0.4
    ensures m == Wald <==> 0.2 < n <= 0.35
    ensures m == Eisen <==> 0.1 < n <= 0.15 && draw < 0.3
    ensures m == Magnesium <==> 0.35 < n <= 0.4 && draw < 0.1
    ensures m == Gras <==>
      (-0.1 <= n <= 0.1) || (0.15 < n <= 0.2) ||
      (0.1 < n <= 0.15 && draw >= 0.3) || (0.35 < n <= 0.4 && draw >= 0.1)
  {
    if n < -0.3 then Kohle
    else if n < -0.1 then Stein
    else if n > 0.4 then Stein
    else if 0.2 < n <= 0.35 then Wald
    else if 0.1 < n <= 0.15 && draw < 0.3 then Eisen
    else if n > 0.35 && draw < 0.1 then Magnesium
    else Gras
  }

  /** How many random draws classifying `n` consumes: one exactly when the
      noise part of rule 5 or of rule 6 is reached and holds. */
  function DrawCount(n: real): (c: nat)
    ensures c <= 1
  {
    if (0.1 < n <= 0.15) || (0.35 < n <= 0.4) then 1 else 0
  }

  /** When a tile consumes no draw, the draw cannot influence its material. */
  lemma ClassifyIgnoresUnusedDraw(n: real, d1: real, d2: real)
    requires DrawCount(n) == 0
    ensures Classify(n, d1) == Classify(n, d2)
  {
  }

  /** The state of the generation loop: the tiles produced so far and the
      number of random draws consumed so far. */
  datatype Generation = Generation(tiles: map<Coord, Tile>, draws: nat)

  /** p comes before (x, y) in the generation order (x outer, y inner). */
  predicate Before(p: Coord, x: int, y: int)
  {
    (0 <= p.0 < x && 0 <= p.1 < WorldSize) || (p.0 == x && 0 <= p.1 < y)
  }

  /** The loop state just before tile (x, y) is generated; (x, WorldSize)
      is the state after the whole column x. Each tile is classified with
      the draw at the current stream index, which then moves on by the
      tile's draw count. */
  function Generate(noise: Coord -> real, rand: nat -> real, x: nat, y: nat): Generation
    requires y <= WorldSize
    decreases x, y
  {
    if y == 0 then
      (if x == 0 then Generation(map[], 0) else Generate(noise, rand, x - 1, WorldSize))
    else
      var g := Generate(noise, rand, x, y - 1);
      var n := noise((x, y - 1));
      Generation(g.tiles[(x, y - 1) := Tile(Classify(n, rand(g.draws)), false)], g.draws + DrawCount(n))
  }

  /** The tile map generate_world produces. */
  function GeneratedWorld(noise: Coord -> real, rand: nat -> real): map<Coord, Tile>
  {
    Generate(noise, rand, WorldSize, 0).tiles
  }

  /** Exactly the coordinates before (x, y) have been filled. */
  lemma {:induction false} GenerateKeys(noise: Coord -> real, rand: nat -> real, x: nat, y: nat)
    requires y <= WorldSize
    ensures forall p :: p in Generate(noise, rand, x, y).tiles <==> Before(p, x, y)
    decreases x, y
  {
    if y == 0 {
      if x > 0 {
        GenerateKeys(noise, rand, x - 1, WorldSize);
      }
    } else {
      GenerateKeys(noise, rand, x, y - 1);
    }
  }

  /** No generated tile is collected. */
  lemma {:induction false} GenerateUncollected(noise: Coord -> real, rand: nat -> real, x: nat, y: nat)
    requires y <= WorldSize
    ensures forall p :: p in Generate(noise, rand, x, y).tiles ==> !Generate(noise, rand, x, y).tiles[p].collected
    decreases x, y
  {
    if y == 0 {
      if x > 0 {
        GenerateUncollected(noise, rand, x - 1, WorldSize);
      }
    } else {
      GenerateUncollected(noise, rand, x, y - 1);
    }
  }

  /** At most one draw per tile: the stream index before (x, y) is at most
      the number of tiles before it. */
  lemma {:induction false} GenerateDrawBound(noise: Coord -> real, rand: nat -> real, x: nat, y: nat)
    requires y <= WorldSize
    ensures Generate(noise, rand, x, y).draws <= x * WorldSize + y
    decreases x, y
  {
    if y == 0 {
      if x > 0 {
        GenerateDrawBound(noise, rand, x - 1, WorldSize);
      }
    } else {
      GenerateDrawBound(noise, rand, x, y - 1);
    }
  }

  /** Once generated, a tile is never overwritten by later steps: the tile at
      p is classified with the draw at the stream index the loop had reached
      when it came to p. */
  lemma {:induction false} GenerateTileAt(noise: Coord -> real, rand: nat -> real, x: nat, y: nat, p: Coord)
    requires y <= WorldSize && Before(p, x, y)
    ensures p in Generate(noise, rand, x, y).tiles
    ensures Generate(noise, rand, x, y).tiles[p] ==
              Tile(Classify(noise(p), rand(Generate(noise, rand, p.0, p.1).draws)), false)
    decreases x, y
  {
    if y == 0 {
      GenerateTileAt(noise, rand, x - 1, WorldSize, p);
    } else if p != (x, y - 1) {
      GenerateTileAt(noise, rand, x, y - 1, p);
    }
  }

  /** Everything generated before (x, y) in one statement: exactly those
      coordinates hold a tile, each uncollected and classified with the draw
      the stream had reached at that tile. */
  lemma GenerateContents(noise: Coord -> real, rand: nat -> real, x: nat, y: nat)
    requires y <= WorldSize
    requires x < WorldSize || (x == WorldSize && y == 0)
    ensures forall p :: p in Generate(noise, rand, x, y).tiles <==> Before(p, x, y)
    ensures forall p :: p in Generate(noise, rand, x, y).tiles ==>
              InBounds(p.0, p.1) &&
              Generate(noise, rand, x, y).tiles[p] ==
                Tile(Classify(noise(p), rand(Generate(noise, rand, p.0, p.1).draws)), false)
  {
    GenerateKeys(noise, rand, x, y);
    forall p | p in Generate(noise, rand, x, y).tiles
      ensures InBounds(p.0, p.1) &&
              Generate(noise, rand, x, y).tiles[p] ==
                Tile(Classify(noise(p), rand(Generate(noise, rand, p.0, p.1).draws)), false)
    {
      GenerateTileAt(noise, rand, x, y, p);
    }
  }

  // ---------------------------------------------------------------------------
  // Queries

  /** Dictionary lookup with a None default. */
  function GetTile(tiles: map<Coord, Tile>, x: int, y: int): (t: Option<Tile>)
    ensures t.Some? <==> (x, y) in tiles
    ensures t.Some? ==> t.value == tiles[(x, y)]
  {
    if (x, y) in tiles then Some(tiles[(x, y)]) else None
  }

  /** Walkability: in bounds, present, and Gras or already collected. */
  function IsValidPosition(tiles: map<Coord, Tile>, x: int, y: int): (ok: bool)
    ensures !InBounds(x, y) ==> !ok
    ensures ok ==> (x, y) in tiles
    ensures InBounds(x, y) && (x, y) in tiles ==>
              (ok <==> tiles[(x, y)].material == Gras || tiles[(x, y)].collected)
  {
    if !InBounds(x, y) then false
    else
      match GetTile(tiles, x, y)
      case Some(t) => t.material == Gras || t.collected
      case None => false
  }

  // ---------------------------------------------------------------------------
  // Harvesting

  /** The resource a material yields: Wald gives Holz, everything else its own name. */
  function ResourceOf(m: Material): (r: string)
    ensures r == "Holz" <==> m == Wald
    ensures m != Wald ==> r == MaterialName(m)
  {
    if m == Wald then "Holz" else MaterialName(m)
  }

  /** Different materials yield different resources. */
  lemma ResourceOfInjective(m1: Material, m2: Material)
    requires ResourceOf(m1) == ResourceOf(m2)
    ensures m1 == m2
  {
  }

  predicate Harvestable(tiles: map<Coord, Tile>, x: int, y: int)
  {
    (x, y) in tiles && !tiles[(x, y)].collected && tiles[(x, y)].material != Gras
  }

  /** The tiles after a harvest and the resource it yielded, if any. */
  datatype Harvest = Harvest(tiles: map<Coord, Tile>, resource: Option<string>)

  /** collect_material on a tile map. */
  function Collect(tiles: map<Coord, Tile>, x: int, y: int): (h: Harvest)
    ensures h.tiles.Keys == tiles.Keys
    ensures h.resource.Some? <==> Harvestable(tiles, x, y)
    ensures h.resource.Some? ==>
              h.resource.value == ResourceOf(tiles[(x, y)].material) && h.tiles[(x, y)].collected
    ensures h.resource.None? ==> h.tiles == tiles
    ensures forall p :: p in tiles ==> h.tiles[p].material == tiles[p].material
    ensures forall p :: p in tiles && tiles[p].collected ==> h.tiles[p].collected
    ensures forall p :: p in tiles && p != (x, y) ==> h.tiles[p] == tiles[p]
  {
    match GetTile(tiles, x, y)
    case Some(t) =>
      if !t.collected && t.material != Gras then
        Harvest(tiles[(x, y) := t.(collected := true)], Some(ResourceOf(t.material)))
      else
        Harvest(tiles, None)
    case None => Harvest(tiles, None)
  }

  /** A second harvest of the same tile yields nothing and changes nothing. */
  lemma CollectTwice(tiles: map<Coord, Tile>, x: int, y: int)
    ensures var once := Collect(tiles, x, y).tiles;
            Collect(once, x, y) == Harvest(once, None)
  {
  }

  /** Out of bounds, Gras, or already collected: nothing is yielded and
      nothing changes, provided the map holds only in-bounds tiles. */
  lemma CollectNoOp(tiles: map<Coord, Tile>, x: int, y: int)
    requires forall p :: p in tiles ==> InBounds(p.0, p.1)
    requires !InBounds(x, y) || ((x, y) in tiles && (tiles[(x, y)].material == Gras || tiles[(x, y)].collected))
    ensures Collect(tiles, x, y) == Harvest(tiles, None)
  {
  }

  /** Harvesting never makes a walkable position unwalkable, and a
      successful harvest makes the harvested position walkable. */
  lemma CollectKeepsWalkable(tiles: map<Coord, Tile>, x: int, y: int, px: int, py: int)
    ensures IsValidPosition(tiles, px, py) ==> IsValidPosition(Collect(tiles, x, y).tiles, px, py)
    ensures Collect(tiles, x, y).resource.Some? && InBounds(x, y) ==>
              IsValidPosition(Collect(tiles, x, y).tiles, x, y)
  {
  }
}
