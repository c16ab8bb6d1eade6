/** The game object: the build menu, building an item (affordability check,
    deduction, placement), the key dispatch of the event handler, and the
    camera that follows the player. */
module GameState {
  import opened Wrappers
  import opened Terrain
  import opened Lighting
  import opened WorldState
  import opened PlayerState

  const ScreenWidth: int := 800
  const ScreenHeight: int := 600
  const TileSize: int := 32

  // ---------------------------------------------------------------------------
  // Build items and their costs

  /** One entry of a cost dictionary, in the dictionary's order. */
  datatype Cost = Cost(material: string, amount: int)

  datatype BuildItem = BuildItem(name: string, cost: seq<Cost>)

  /** The one build item of the game: a campfire for 4 Stein and 4 Kohle. */
  function DefaultBuildItems(): seq<BuildItem>
  {
    [BuildItem(Campfire, [Cost("Stein", 4), Cost("Kohle", 4)])]
  }

  /** The game's cost dictionary has positive amounts and distinct materials. */
  lemma DefaultBuildItemsWellFormed()
    ensures forall i :: 0 <= i < |DefaultBuildItems()| ==> WellFormedCosts(DefaultBuildItems()[i].cost)
  {
    var costs := DefaultBuildItems()[0].cost;
    assert costs[0].material != costs[1].material by {
      assert costs[0].material[0] == 'S' && costs[1].material[0] == 'K';
    }
  }

  /** inventory.get(k, 0) */
  function Get(inv: map<string, int>, k: string): int
  {
    if k in inv then inv[k] else 0
  }

  /** Every cost amount is covered by what the inventory holds (a missing
      resource counts as 0). */
  predicate Affordable(inv: map<string, int>, costs: seq<Cost>)
  {
    forall i :: 0 <= i < |costs| ==> costs[i].amount <= Get(inv, costs[i].material)
  }

  /** A cost dictionary: positive amounts, each material at most once. */
  predicate WellFormedCosts(costs: seq<Cost>)
  {
    && (forall i :: 0 <= i < |costs| ==> costs[i].amount > 0)
    && (forall i, j :: 0 <= i < j < |costs| ==> costs[i].material != costs[j].material)
  }

  /** Every material the costs name has an inventory counter. */
  predicate HeldAll(inv: map<string, int>, costs: seq<Cost>)
  {
    forall i :: 0 <= i < |costs| ==> costs[i].material in inv
  }

  predicate Mentions(costs: seq<Cost>, k: string)
  {
    exists i :: 0 <= i < |costs| && costs[i].material == k
  }

  /** The deduction loop on values: the costs are subtracted one after the
      other, in dictionary order. */
  function Deducted(inv: map<string, int>, costs: seq<Cost>): (r: map<string, int>)
    requires HeldAll(inv, costs)
    ensures r.Keys == inv.Keys
    decreases |costs|
  {
    if costs == [] then inv
    else
      var c := costs[|costs| - 1];
      var prior := Deducted(inv, costs[..|costs| - 1]);
      prior[c.material := prior[c.material] - c.amount]
  }

  /** Affordable positive costs only name resources the inventory holds. */
  lemma AffordableIsHeld(inv: map<string, int>, costs: seq<Cost>)
    requires WellFormedCosts(costs) && Affordable(inv, costs)
    ensures HeldAll(inv, costs)
  {
  }

  /** A counter no cost names keeps its value. */
  lemma {:induction false} DeductedKeepsUnmentioned(inv: map<string, int>, costs: seq<Cost>)
    requires HeldAll(inv, costs)
    ensures forall k :: k in inv && !Mentions(costs, k) ==> Deducted(inv, costs)[k] == inv[k]
    decreases |costs|
  {
    if costs != [] {
      var n := |costs| - 1;
      var init := costs[..n];
      DeductedKeepsUnmentioned(inv, init);
      forall k | k in inv && !Mentions(costs, k)
        ensures Deducted(inv, costs)[k] == inv[k]
      {
        assert costs[n].material != k;
        assert !Mentions(init, k) by {
          forall j | 0 <= j < |init| ensures init[j].material != k {
            assert init[j] == costs[j];
          }
        }
      }
    }
  }

  /** Dropping the last cost keeps a cost dictionary well formed, and the
      dropped material is not named by the others. */
  lemma DropLastCost(costs: seq<Cost>)
    requires WellFormedCosts(costs) && costs != []
    ensures WellFormedCosts(costs[..|costs| - 1])
    ensures !Mentions(costs[..|costs| - 1], costs[|costs| - 1].material)
  {
    var init := costs[..|costs| - 1];
    forall i, j | 0 <= i < j < |init| ensures init[i].material != init[j].material {
      assert init[i] == costs[i] && init[j] == costs[j];
    }
    forall j | 0 <= j < |init| ensures init[j].material != costs[|costs| - 1].material {
      assert init[j] == costs[j];
    }
  }

  /** The counter of the i-th cost loses exactly that cost's amount. */
  lemma {:induction false} DeductedAt(inv: map<string, int>, costs: seq<Cost>, i: int)
    requires HeldAll(inv, costs) && WellFormedCosts(costs) && 0 <= i < |costs|
    ensures Deducted(inv, costs)[costs[i].material] == inv[costs[i].material] - costs[i].amount
    decreases |costs|
  {
    var n := |costs| - 1;
    var init := costs[..n];
    DropLastCost(costs);
    if i == n {
      DeductedKeepsUnmentioned(inv, init);
    } else {
      assert init[i] == costs[i];
      DeductedAt(inv, init, i);
    }
  }

  /** Each cost is subtracted exactly once from its own counter, and every
      other counter keeps its value. */
  lemma DeductedSubtractsOnce(inv: map<string, int>, costs: seq<Cost>)
    requires HeldAll(inv, costs) && WellFormedCosts(costs)
    ensures forall i :: 0 <= i < |costs| ==>
              Deducted(inv, costs)[costs[i].material] == inv[costs[i].material] - costs[i].amount
    ensures forall k :: k in inv && !Mentions(costs, k) ==> Deducted(inv, costs)[k] == inv[k]
  {
    DeductedKeepsUnmentioned(inv, costs);
    forall i | 0 <= i < |costs|
      ensures Deducted(inv, costs)[costs[i].material] == inv[costs[i].material] - costs[i].amount
    {
      DeductedAt(inv, costs, i);
    }
  }

  /** Deducting affordable costs never drives a counter below zero. */
  lemma DeductionKeepsNonNegative(inv: map<string, int>, costs: seq<Cost>)
    requires NonNegative(inv) && WellFormedCosts(costs) && Affordable(inv, costs)
    ensures HeldAll(inv, costs) && NonNegative(Deducted(inv, costs))
  {
    AffordableIsHeld(inv, costs);
    DeductedSubtractsOnce(inv, costs);
    var r := Deducted(inv, costs);
    forall k | k in r ensures r[k] >= 0 {
      if Mentions(costs, k) {
        var i :| 0 <= i < |costs| && costs[i].material == k;
        assert Get(inv, k) == inv[k];
      }
    }
  }

  /** With the inventory's fixed keys the campfire can never be paid for:
      it costs Stein, which has no counter. */
  lemma CampfireNeverAffordable(inv: map<string, int>)
    requires inv.Keys == InventoryKeys
    ensures !Affordable(inv, DefaultBuildItems()[0].cost)
  {
    assert "Stein" !in inv;
    assert DefaultBuildItems()[0].cost[0] == Cost("Stein", 4);
  }

  // ---------------------------------------------------------------------------
  // Key dispatch

  datatype Key = Escape | KeyB | Key1 | Return | Space | KeyW | KeyS | KeyA | KeyD | OtherKey

  datatype Event = Quit | KeyDown(key: Key) | OtherEvent

  datatype Action = Stop | ToggleMenu | SelectFirst | Build | Mine | Step(dx: int, dy: int) | Ignore

  predicate IsStop(e: Event)
  {
    e == Quit || e == KeyDown(Escape)
  }

  /** What one event does, given whether the build menu is open. */
  function Dispatch(menuOpen: bool, e: Event): (a: Action)
    ensures a == Stop <==> IsStop(e)
    ensures a == ToggleMenu <==> e == KeyDown(KeyB)
    ensures a == SelectFirst <==> menuOpen && e == KeyDown(Key1)
    ensures a == Build <==> menuOpen && e == KeyDown(Return)
    ensures a == Mine <==> !menuOpen && e == KeyDown(Space)
    ensures a.Step? <==> !menuOpen && e.KeyDown? && e.key in {KeyW, KeyS, KeyA, KeyD}
    ensures a.Step? ==> Abs(a.dx) + Abs(a.dy) == 1
    ensures !menuOpen && e == KeyDown(KeyW) ==> a == Step(0, -1)
    ensures !menuOpen && e == KeyDown(KeyS) ==> a == Step(0, 1)
    ensures !menuOpen && e == KeyDown(KeyA) ==> a == Step(-1, 0)
    ensures !menuOpen && e == KeyDown(KeyD) ==> a == Step(1, 0)
  {
    match e
    case Quit => Stop
    case OtherEvent => Ignore
    case KeyDown(k) =>
      if k == Escape then Stop
      else if k == KeyB then ToggleMenu
      else if menuOpen then
        (if k == Key1 then SelectFirst else if k == Return then Build else Ignore)
      else
        match k
        case Space => Mine
        case KeyW => Step(0, -1)
        case KeyS => Step(0, 1)
        case KeyA => Step(-1, 0)
        case KeyD => Step(1, 0)
        case _ => Ignore
  }

  /** While the menu is open only B, 1, RETURN, ESC and QUIT do anything;
      while it is closed, 1 and RETURN do nothing. */
  lemma MenuModes(e: Event)
    ensures Dispatch(true, e) in {Stop, ToggleMenu, SelectFirst, Build, Ignore}
    ensures Dispatch(false, e) != SelectFirst && Dispatch(false, e) != Build
  {
  }

  // ---------------------------------------------------------------------------
  // The game

  class Game {
    const world: World
    const player: Player
    const buildItems: seq<BuildItem>
    var cameraX: int
    var cameraY: int
    var buildMenuOpen: bool
    var selectedBuildItem: int

    /** World and player invariants, the player on its grid cell, a
        non-negative selection and well-formed cost dictionaries. */
    ghost predicate Valid()
      reads this, world, player
    {
      && world.Valid() && player.Valid() && player.Snapped()
      && 0 <= selectedBuildItem
      && forall i :: 0 <= i < |buildItems| ==> WellFormedCosts(buildItems[i].cost)
    }

    /** A new game: a generated world, the player at its spawn point, the
        build menu closed with the first item selected. */
    constructor (noise: Coord -> real, rand: nat -> real)
      ensures Valid() && fresh(world) && fresh(player)
      ensures world.tiles == GeneratedWorld(noise, rand) && world.buildings == map[]
      ensures player.tileSize == TileSize && player.Snapped()
      ensures player.gridX == WorldSize / 2 && player.gridY == WorldSize / 2
      ensures player.inventory == InitialInventory()
      ensures cameraX == 0 && cameraY == 0
      ensures !buildMenuOpen && selectedBuildItem == 0
      ensures buildItems == DefaultBuildItems()
    {
      var w := new World(TileSize, noise, rand);
      SpawnIsSnapped(TileSize);
      DefaultBuildItemsWellFormed();
      var p := new Player(w.spawnX, w.spawnY, TileSize);
      world := w;
      player := p;
      cameraX, cameraY := 0, 0;
      buildMenuOpen := false;
      selectedBuildItem := 0;
      buildItems := DefaultBuildItems();
    }

    /** The camera is placed so that the player sits at the screen centre. */
    method UpdateCamera()
      modifies this`cameraX, this`cameraY
      ensures cameraX == player.x - ScreenWidth / 2 && cameraY == player.y - ScreenHeight / 2
    {
      cameraX := player.x - ScreenWidth / 2;
      cameraY := player.y - ScreenHeight / 2;
    }

    /** The effect of try_build_item. An affordable selected item has its
        costs deducted, closes the menu, and (for a campfire) is placed at the
        player's cell if that cell is walkable; the deduction happens either
        way. Otherwise nothing changes. */
    twostate predicate BuildAttempted()
      reads this, world, player
    {
      && world.tiles == old(world.tiles)
      && player.x == old(player.x) && player.y == old(player.y)
      && player.gridX == old(player.gridX) && player.gridY == old(player.gridY)
      && selectedBuildItem == old(selectedBuildItem)
      && cameraX == old(cameraX) && cameraY == old(cameraY)
      && if 0 <= old(selectedBuildItem) < |buildItems| &&
            Affordable(old(player.inventory), buildItems[old(selectedBuildItem)].cost) then
           var item := buildItems[old(selectedBuildItem)];
           && HeldAll(old(player.inventory), item.cost)
           && player.inventory == Deducted(old(player.inventory), item.cost)
           && !buildMenuOpen
           && world.buildings ==
                (if item.name == Campfire
                 then Place(old(world.tiles), old(world.buildings), old(player.gridX), old(player.gridY), Campfire)
                 else old(world.buildings))
         else
           && player.inventory == old(player.inventory)
           && world.buildings == old(world.buildings)
           && buildMenuOpen == old(buildMenuOpen)
    }

    /** The affordability loop of try_build_item: stops at the first cost
        that the inventory does not cover. */
    static method CanAfford(inv: map<string, int>, costs: seq<Cost>) returns (ok: bool)
      ensures ok <==> Affordable(inv, costs)
    {
      var i := 0;
      while i < |costs|
        invariant 0 <= i <= |costs|
        invariant forall j :: 0 <= j < i ==> costs[j].amount <= Get(inv, costs[j].material)
      {
        if Get(inv, costs[i].material) < costs[i].amount {
          return false;
        }
        i := i + 1;
      }
      return true;
    }

    /** The deduction loop of try_build_item: subtracts every cost, in
        order, from the player's inventory. */
    method DeductCosts(costs: seq<Cost>)
      requires HeldAll(player.inventory, costs)
      modifies player`inventory
      ensures player.inventory == Deducted(old(player.inventory), costs)
    {
      ghost var before := player.inventory;
      for j := 0 to |costs|
        invariant HeldAll(before, costs[..j])
        invariant player.inventory == Deducted(before, costs[..j])
      {
        var c := costs[j];
        assert costs[..j + 1][..j] == costs[..j];
        player.inventory := player.inventory[c.material := player.inventory[c.material] - c.amount];
      }
      assert costs[..|costs|] == costs;
    }

    method TryBuildItem()
      requires Valid()
      modifies this`buildMenuOpen, player`inventory, world`buildings
      ensures Valid()
      ensures BuildAttempted()
      ensures buildItems == DefaultBuildItems() ==>
                player.inventory == old(player.inventory) && world.buildings == old(world.buildings) &&
                buildMenuOpen == old(buildMenuOpen)
    {
      if buildItems == DefaultBuildItems() {
        CampfireNeverAffordable(player.inventory);
      }
      if selectedBuildItem >= |buildItems| {
        return;
      }
      var item := buildItems[selectedBuildItem];

      var canBuild := CanAfford(player.inventory, item.cost);
      if canBuild {
        DeductionKeepsNonNegative(player.inventory, item.cost);
        DeductCosts(item.cost);
        if item.name == Campfire {
          world.PlaceBuilding(player.gridX, player.gridY, Campfire);
        }
        buildMenuOpen := false;
      }
    }

    /** One pass of the event handler's body: performs the action the
        event dispatches to. */
    method HandleEvent(e: Event) returns (running: bool)
      requires Valid()
      modifies this, world, player
      ensures Valid()
      ensures running <==> !IsStop(e)
      ensures match Dispatch(old(buildMenuOpen), e)
        case Stop => unchanged(this, world, player)
        case Ignore => unchanged(this, world, player)
        case ToggleMenu =>
          && buildMenuOpen == !old(buildMenuOpen) && selectedBuildItem == old(selectedBuildItem)
          && cameraX == old(cameraX) && cameraY == old(cameraY)
          && unchanged(world, player)
        case SelectFirst =>
          && selectedBuildItem == 0 && buildMenuOpen == old(buildMenuOpen)
          && cameraX == old(cameraX) && cameraY == old(cameraY)
          && unchanged(world, player)
        case Build => BuildAttempted()
        case Mine =>
          && player.Mined(world) && world.buildings == old(world.buildings)
          && player.x == old(player.x) && player.y == old(player.y)
          && player.gridX == old(player.gridX) && player.gridY == old(player.gridY)
          && unchanged(this)
        case Step(dx, dy) => player.Moved(dx, dy, world) && unchanged(this, world)
    {
      match Dispatch(buildMenuOpen, e) {
        case Stop =>
          return false;
        case Ignore =>
        case ToggleMenu =>
          buildMenuOpen := !buildMenuOpen;
        case SelectFirst =>
          selectedBuildItem := 0;
        case Build =>
          TryBuildItem();
        case Mine =>
          var _ := player.MineRight(world);
        case Step(dx, dy) =>
          player.Move(dx, dy, world);
      }
      return true;
    }

    /** handle_events: handles the events of one frame in order and reports
        false as soon as one of them is QUIT or ESC. */
    method HandleEvents(events: seq<Event>) returns (running: bool)
      requires Valid()
      modifies this, world, player
      ensures Valid()
      ensures running <==> forall i :: 0 <= i < |events| ==> !IsStop(events[i])
    {
      for i := 0 to |events|
        invariant Valid()
        invariant forall j :: 0 <= j < i ==> !IsStop(events[j])
      {
        var more := HandleEvent(events[i]);
        if !more {
          return false;
        }
      }
      return true;
    }
  }
}
