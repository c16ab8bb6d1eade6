/** The player: a grid position with its pixel twin, snapped movement gated by
    walkability, mining the tile on the right, and a fixed-key inventory. */
module PlayerState {
  import opened Wrappers
  import opened Terrain
  import opened WorldState

  /** The inventory holds counters for exactly these resources. */
  const InventoryKeys: set<string> := {"Eisen", "Kohle", "Magnesium", "Holz"}

  function InitialInventory(): (inv: map<string, int>)
    ensures inv.Keys == InventoryKeys
    ensures forall k :: k in inv ==> inv[k] == 0
  {
    map["Eisen" := 0, "Kohle" := 0, "Magnesium" := 0, "Holz" := 0]
  }

  ghost predicate NonNegative(inv: map<string, int>)
  {
    forall k :: k in inv ==> inv[k] >= 0
  }

  /** add_to_inventory on values: a known resource goes up by one, anything
      else is ignored. */
  function AddResource(inv: map<string, int>, name: string): (r: map<string, int>)
    ensures r.Keys == inv.Keys
    ensures name in inv ==> r[name] == inv[name] + 1
    ensures forall k :: k in inv && k != name ==> r[k] == inv[k]
    ensures name !in inv ==> r == inv
  {
    if name in inv then inv[name := inv[name] + 1] else inv
  }

  /** Adding a resource never lowers a counter. */
  lemma AddResourceNeverDecreases(inv: map<string, int>, name: string)
    ensures forall k :: k in inv ==> AddResource(inv, name)[k] >= inv[k]
    ensures NonNegative(inv) ==> NonNegative(AddResource(inv, name))
  {
  }

  /** Every resource a harvest can yield, except Stein and Gras, has a
      counter; a harvested Stein is dropped. */
  lemma HarvestedResourceKnown(m: Material)
    ensures ResourceOf(m) in InventoryKeys <==> m != Stein && m != Gras
  {
  }

  class Player {
    const tileSize: int
    var x: int
    var y: int
    var gridX: int
    var gridY: int
    var inventory: map<string, int>

    /** The counters keep their keys and never go negative. */
    ghost predicate Valid()
      reads this
    {
      tileSize > 0 && inventory.Keys == InventoryKeys && NonNegative(inventory)
    }

    /** The pixel position is the grid position times the tile size. */
    ghost predicate Snapped()
      reads this
    {
      x == gridX * tileSize && y == gridY * tileSize
    }

    /** The grid position is the pixel position floor-divided by the tile
        size (Python's // equals Dafny's / for a positive divisor). */
    constructor (x: int, y: int, tileSize: int)
      requires tileSize > 0
      ensures Valid()
      ensures this.tileSize == tileSize && this.x == x && this.y == y
      ensures gridX == x / tileSize && gridY == y / tileSize
      ensures inventory == InitialInventory()
    {
      this.tileSize := tileSize;
      this.x := x;
      this.y := y;
      gridX := x / tileSize;
      gridY := y / tileSize;
      inventory := InitialInventory();
    }

    /** The effect of move(dx, dy): a non-zero step to a walkable target
        moves the grid position there and snaps the pixel position to it;
        anything else changes nothing. */
    twostate predicate Moved(dx: int, dy: int, world: World)
      reads this, world
    {
      && inventory == old(inventory)
      && if (dx != 0 || dy != 0) && IsValidPosition(old(world.tiles), old(gridX) + dx, old(gridY) + dy) then
           && gridX == old(gridX) + dx && gridY == old(gridY) + dy
           && x == gridX * tileSize && y == gridY * tileSize
         else
           gridX == old(gridX) && gridY == old(gridY) && x == old(x) && y == old(y)
    }

    method Move(dx: int, dy: int, world: World)
      modifies this`gridX, this`gridY, this`x, this`y
      ensures Moved(dx, dy, world)
      ensures old(Snapped()) ==> Snapped()
    {
      if dx == 0 && dy == 0 {
        return;
      }
      var newGridX := gridX + dx;
      var newGridY := gridY + dy;
      if IsValidPosition(world.tiles, newGridX, newGridY) {
        gridX := newGridX;
        gridY := newGridY;
        x := gridX * tileSize;
        y := gridY * tileSize;
      }
    }

    method AddToInventory(material: string)
      modifies this`inventory
      ensures inventory == AddResource(old(inventory), material)
    {
      if material in inventory {
        inventory := inventory[material := inventory[material] + 1];
      }
    }

    /** The effect of mine_right: the tile right of the player is harvested
        and what it yields is added to the inventory. */
    twostate predicate Mined(world: World)
      reads this, world
    {
      var h := Collect(old(world.tiles), old(gridX) + 1, old(gridY));
      && world.tiles == h.tiles
      && inventory == (if h.resource.Some? then AddResource(old(inventory), h.resource.value) else old(inventory))
    }

    method MineRight(world: World) returns (mined: bool)
      requires world.Valid()
      modifies this`inventory, world`tiles
      ensures world.Valid()
      ensures Mined(world)
      ensures mined <==> Harvestable(old(world.tiles), old(gridX) + 1, old(gridY))
      ensures forall k :: k in old(inventory) ==> k in inventory && inventory[k] >= old(inventory)[k]
    {
      var targetX := gridX + 1;
      var targetY := gridY;
      var material := world.CollectMaterial(targetX, targetY);
      if material.Some? {
        AddToInventory(material.value);
        return true;
      }
      return false;
    }
  }

  /** A player created at a world's spawn point starts snapped, on grid
      cell (WorldSize / 2, WorldSize / 2). */
  lemma SpawnIsSnapped(tileSize: int)
    requires tileSize > 0
    ensures ((WorldSize / 2) * tileSize) / tileSize == WorldSize / 2
    ensures ((WorldSize / 2) * tileSize) / tileSize * tileSize == (WorldSize / 2) * tileSize
  {
    MulDivCancel(WorldSize / 2, tileSize);
  }

  lemma MulDivCancel(a: int, b: int)
    requires b > 0
    ensures (a * b) / b == a
  {
    var q, r := (a * b) / b, (a * b) % b;
    assert a * b == b * q + r;
    DivUnique(a, b, q, r);
  }

  lemma DivUnique(a: int, b: int, q: int, r: int)
    requires b > 0 && 0 <= r < b && a * b == b * q + r
    ensures q == a
  {
    var d := a - q;
    assert d * b == r by { assert d * b == a * b - q * b; }
    if d >= 1 {
      MulAtLeast(d, b);
    }
  }

  lemma MulAtLeast(d: int, b: int)
    requires d >= 1 && b > 0
    ensures d * b >= b
  {
    assert d * b == (d - 1) * b + b;
    assert (d - 1) * b >= 0;
  }
}
