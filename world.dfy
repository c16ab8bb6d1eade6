/** The World object: the tile dictionary filled once by generation, the
    building dictionary, and the operations that change or scan them. */
module WorldState {
  import opened Wrappers
  import opened Terrain
  import opened Lighting

  class World {
    const tileSize: int
    const spawnX: int
    const spawnY: int
    var tiles: map<Coord, Tile>
    var buildings: map<Coord, Building>

    /** Every in-bounds coordinate and nothing else has a tile. */
    ghost predicate Valid()
      reads this
    {
      forall p :: p in tiles <==> InBounds(p.0, p.1)
    }

    /** The spawn point is the pixel position of the grid centre. */
    constructor (tileSize: int, noise: Coord -> real, rand: nat -> real)
      ensures this.tileSize == tileSize
      ensures spawnX == (WorldSize / 2) * tileSize && spawnY == (WorldSize / 2) * tileSize
      ensures buildings == map[]
      ensures Valid() && tiles == GeneratedWorld(noise, rand)
    {
      this.tileSize := tileSize;
      spawnX := (WorldSize / 2) * tileSize;
      spawnY := (WorldSize / 2) * tileSize;
      buildings := map[];
      new;
      GenerateWorld(noise, rand);
    }

    /** Fills the grid column by column (x outer, y inner), consuming a draw
        from `rand` only where rule 5 or rule 6 is reached with its noise
        condition true. Buildings are left as they are. */
    method GenerateWorld(noise: Coord -> real, rand: nat -> real)
      modifies this`tiles
      ensures Valid() && tiles == GeneratedWorld(noise, rand)
    {
      tiles := map[];
      var k: nat := 0;
      var x := 0;
      while x < WorldSize
        invariant 0 <= x <= WorldSize
        invariant Generation(tiles, k) == Generate(noise, rand, x, 0)
      {
        k := GenerateColumn(noise, rand, x, k);
        x := x + 1;
      }
      GenerateKeys(noise, rand, WorldSize, 0);
    }

    /** The inner loop of generation: the tiles (x, 0) .. (x, WorldSize - 1),
        starting at stream index `k`; returns the index after the column. */
    method GenerateColumn(noise: Coord -> real, rand: nat -> real, x: int, k: nat) returns (next: nat)
      requires 0 <= x < WorldSize && Generation(tiles, k) == Generate(noise, rand, x, 0)
      modifies this`tiles
      ensures Generation(tiles, next) == Generate(noise, rand, x + 1, 0)
    {
      next := k;
      var y := 0;
      while y < WorldSize
        invariant 0 <= y <= WorldSize
        invariant Generation(tiles, next) == Generate(noise, rand, x, y)
      {
        var material;
        material, next := ClassifyTile(noise((x, y)), rand, next);
        tiles := tiles[(x, y) := Tile(material, false)];
        y := y + 1;
      }
    }

    /** The rule chain of one tile, reading the random stream at index `k`
        only when rule 5 or rule 6 is reached with its noise test true. */
    static method ClassifyTile(n: real, rand: nat -> real, k: nat) returns (material: Material, next: nat)
      ensures material == Classify(n, rand(k))
      ensures next == k + DrawCount(n)
    {
      next := k;
      if n < -0.3 {
        material := Kohle;
      } else if n < -0.1 {
        material := Stein;
      } else if n > 0.4 {
        material := Stein;
      } else if n > 0.2 && n <= 0.35 {
        material := Wald;
      } else {
        // rule 5: the draw is taken only once its noise test has passed
        var iron := false;
        if n > 0.1 && n <= 0.15 {
          iron := rand(next) < 0.3;
          next := next + 1;
        }
        if iron {
          material := Eisen;
        } else {
          // rule 6 likewise; after a failed rule 5 its noise test is false
          var magnesium := false;
          if n > 0.35 {
            magnesium := rand(next) < 0.1;
            next := next + 1;
          }
          material := if magnesium then Magnesium else Gras;
        }
      }
    }

    /** collect_material: harvests the tile at (x, y) if it is there, not yet
        collected and not Gras, and returns its resource. */
    method CollectMaterial(x: int, y: int) returns (resource: Option<string>)
      requires Valid()
      modifies this`tiles
      ensures Valid()
      ensures Harvest(tiles, resource) == Collect(old(tiles), x, y)
    {
      var tile := GetTile(tiles, x, y);
      if tile.Some? && !tile.value.collected && tile.value.material != Gras {
        tiles := tiles[(x, y) := tile.value.(collected := true)];
        if tile.value.material == Wald {
          return Some("Holz");
        } else {
          return Some(MaterialName(tile.value.material));
        }
      }
      return None;
    }

    /** place_building: stores (or replaces) a building at a walkable position. */
    method PlaceBuilding(x: int, y: int, kind: string)
      modifies this`buildings
      ensures buildings == Place(tiles, old(buildings), x, y, kind)
    {
      if IsValidPosition(tiles, x, y) {
        buildings := buildings[(x, y) := NewBuilding(kind)];
      }
    }

    /** get_light_level: scans the buildings in an unspecified order, adding
        each lit building's falloff and clamping at 1.0 after every step. */
    method GetLightLevel(x: int, y: int) returns (level: real)
      ensures level == LightLevel(buildings, x, y)
      ensures AmbientLight <= level <= 1.0
    {
      level := AmbientLight;
      var todo := buildings.Keys;
      while todo != {}
        invariant todo <= buildings.Keys
        invariant level == Min(1.0, AmbientLight + LightSum(buildings, buildings.Keys - todo, x, y))
        decreases todo
      {
        var p :| p in todo;
        var building := buildings[p];
        if building.lightRange > 0 {
          var distance := Chebyshev(x, y, p.0, p.1);
          if distance <= building.lightRange {
            var strength := 1.0 - (distance as real) / (building.lightRange as real);
            level := Min(1.0, level + strength * LightStrength);
          }
        }
        ghost var done := buildings.Keys - todo;
        LightSumRemove(buildings, done + {p}, p, x, y);
        assert done + {p} - {p} == done;
        todo := todo - {p};
        assert buildings.Keys - todo == done + {p};
      }
      assert buildings.Keys - todo == buildings.Keys;
    }
  }
}
