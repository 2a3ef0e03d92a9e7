/** The authoritative game state: game objects, the map grid, the players
    with their resource ledgers and owned entities, and the log of outbound
    network messages. */
module World {
  import opened Base

  /** What kind of game object it is, with the attributes its class adds. */
  datatype Stats =
    | UnitStats(attack: int, range: int, moveTicks: int, inventory: Stock, inventorySize: int)
      // moveTicks stands for int(speed * coeff)
    | BuildingStats(dropPoint: bool, popIncrease: bool, capacity: int, farmFood: Option<int>)
      // farmFood is Some(remaining food) exactly for a Farm
    | ResourceStats(kind: ResourceType)
      // a resource's hp is its remaining amount
    | PlainStats
      // a bare GameObject, such as the "Place Holder"

  datatype GameObject = GameObject(
    name: string,
    size: nat,
    hp: int,
    coord: Option<Coord>,
    alive: bool,
    owner: Option<PlayerName>,
    netId: int,          // the id carried on the wire; `id(obj)` for local objects
    cost: Stock,
    spawnTime: int,
    stats: Stats)
  {
    predicate IsUnit() { stats.UnitStats? }
    predicate IsBuilding() { stats.BuildingStats? }
    predicate IsResource() { stats.ResourceStats? }
    predicate IsFarm() { stats.BuildingStats? && stats.farmFood.Some? }
    predicate Living() { alive && hp > 0 }
  }

  const PlaceHolderName: string := "Place Holder"

  /** `GameObject("Place Holder", "x", 9999)` of the given size. */
  function PlaceHolder(size: nat): GameObject {
    GameObject(PlaceHolderName, size, 9999, None, true, None, 0, NoStock, 0, PlainStats)
  }

  datatype Player = Player(
    name: PlayerName,
    resources: Stock,
    units: seq<ObjId>,
    buildings: seq<ObjId>,
    maxPopulation: int)

  /** A player created for a name first seen on the wire. */
  function NewPlayer(name: PlayerName): Player {
    Player(name, NoStock, [], [], 5000)
  }

  /** One outbound network message. Ids are the local object ids. */
  datatype Message =
    | PlaceObjectMsg(id: ObjId, name: string, size: nat, coordinate: Coord)
    | RemoveObjectMsg(id: ObjId, at: Option<Coord>)
    | MoveUnitMsg(player: PlayerName, id: ObjId, name: string, coordinate: Coord, oldCoordinate: Option<Coord>)
    | AttackMsg(player: PlayerName, attackerId: ObjId, attackerName: string, attackerAt: Coord,
                targetId: ObjId, targetName: string, targetAt: Option<Coord>)
    | CollectResourceMsg(player: PlayerName, villagerId: ObjId, villagerName: string, villagerAt: Coord,
                         resourceId: ObjId, resourceName: string, resourceAt: Option<Coord>,
                         remaining: int, amount: int)
    | DropResourceMsg(player: PlayerName, villagerId: ObjId, villagerName: string, villagerAt: Coord,
                      targetId: ObjId, targetName: string, targetAt: Option<Coord>, resources: Stock)
    | LinkOwnerMsg(player: PlayerName, id: ObjId, name: string, at: Option<Coord>)
    | CommandSent(process: Process, entity: ObjId)

  datatype World = World(
    objects: map<ObjId, GameObject>,
    cells: map<Coord, ObjId>,
    players: seq<Player>,
    outbox: seq<Message>,
    nextId: ObjId)

  /** A world mutation that may raise after having changed something. */
  datatype Effect = Effect(world: World, raised: Option<Error>)

  /** `map.get(c)`: the object anchored at `c`, if any. */
  function ObjectAt(w: World, c: Coord): (r: Option<ObjId>)
    ensures r.Some? ==> r.value in w.objects && c in w.cells && w.cells[c] == r.value
  {
    if c in w.cells && w.cells[c] in w.objects then Some(w.cells[c]) else None
  }

  /** Index of the first player with this name (`get_player_with_name`). */
  function PlayerIndex(ps: seq<Player>, name: PlayerName): (r: Option<nat>)
    ensures r.Some? ==> r.value < |ps| && ps[r.value].name == name
    ensures r.Some? ==> forall k :: 0 <= k < r.value ==> ps[k].name != name
    ensures r.None? ==> forall k :: 0 <= k < |ps| ==> ps[k].name != name
  {
    if |ps| == 0 then None
    else if ps[0].name == name then Some(0)
    else
      match PlayerIndex(ps[1..], name)
      case None => None
      case Some(i) => Some(i + 1)
  }

  function PlayerNamed(w: World, name: PlayerName): Option<Player> {
    match PlayerIndex(w.players, name)
    case None => None
    case Some(i) => Some(w.players[i])
  }

  /** Player lookup only reads names, so rosters with the same names in the
      same order answer every lookup alike. */
  lemma SameNamesSameIndex(ps: seq<Player>, qs: seq<Player>, name: PlayerName)
    requires |ps| == |qs| && forall k :: 0 <= k < |ps| ==> ps[k].name == qs[k].name
    ensures PlayerIndex(ps, name) == PlayerIndex(qs, name)
  {
    if |ps| > 0 {
      SameNamesSameIndex(ps[1..], qs[1..], name);
    }
  }

  /** Write back an updated copy of the player called `name`; no effect if
      there is none (the Python object is then detached from the game). */
  function ReplacePlayer(w: World, name: PlayerName, p: Player): (r: World)
    requires p.name == name
    ensures r.objects == w.objects && r.cells == w.cells && r.outbox == w.outbox && r.nextId == w.nextId
    ensures |r.players| == |w.players|
    ensures forall n :: PlayerIndex(r.players, n) == PlayerIndex(w.players, n)
    ensures PlayerNamed(w, name).Some? ==> PlayerNamed(r, name) == Some(p)
    ensures PlayerNamed(w, name).None? ==> r == w
    ensures PlayerNamed(w, name).Some? ==> r.players == w.players[PlayerIndex(w.players, name).value := p]
    ensures forall n :: n != name ==> PlayerNamed(r, n) == PlayerNamed(w, n)
  {
    match PlayerIndex(w.players, name)
    case None => w
    case Some(i) =>
      var r := w.(players := w.players[i := p]);
      forall n ensures PlayerIndex(r.players, n) == PlayerIndex(w.players, n) {
        SameNamesSameIndex(r.players, w.players, n);
      }
      r
  }

  /** Append `x` unless present: set semantics that keep insertion order. */
  function AddId(s: seq<ObjId>, x: ObjId): (r: seq<ObjId>)
    ensures x in r
    ensures forall y :: y in r <==> y in s || y == x
  {
    if x in s then s else s + [x]
  }

  function RemoveId(s: seq<ObjId>, x: ObjId): (r: seq<ObjId>)
    ensures forall y :: y in r <==> y in s && y != x
  {
    if |s| == 0 then []
    else if s[0] == x then RemoveId(s[1..], x)
    else [s[0]] + RemoveId(s[1..], x)
  }

  /** Every player keeps its resources (and the roster its names). */
  predicate SameResources(w: World, r: World) {
    |r.players| == |w.players| &&
    forall k :: 0 <= k < |w.players| ==>
      r.players[k].name == w.players[k].name && r.players[k].resources == w.players[k].resources
  }

  lemma SameResourcesTrans(a: World, b: World, c: World)
    requires SameResources(a, b) && SameResources(b, c)
    ensures SameResources(a, c)
  {
  }

  /** Lookups by name see the same resources on both sides. */
  lemma SameResourcesLookup(w: World, r: World, n: PlayerName)
    requires SameResources(w, r)
    ensures PlayerIndex(r.players, n) == PlayerIndex(w.players, n)
    ensures PlayerNamed(w, n).Some? ==>
              PlayerNamed(r, n).Some? && PlayerNamed(r, n).value.resources == PlayerNamed(w, n).value.resources
  {
    SameNamesSameIndex(r.players, w.players, n);
  }

  /** Only the player records changed. */
  predicate PlayersOnly(w: World, r: World) {
    r.objects == w.objects && r.cells == w.cells && r.outbox == w.outbox && r.nextId == w.nextId
  }

  function AddUnit(w: World, name: PlayerName, id: ObjId): (r: World)
    ensures PlayersOnly(w, r) && SameResources(w, r)
    ensures PlayerNamed(w, name).Some? ==> PlayerNamed(r, name).Some? && id in PlayerNamed(r, name).value.units
    ensures PlayerNamed(w, name).Some? ==> PlayerNamed(r, name).value.maxPopulation == PlayerNamed(w, name).value.maxPopulation
  {
    match PlayerNamed(w, name)
    case None => w
    case Some(p) => ReplacePlayer(w, name, p.(units := AddId(p.units, id)))
  }

  function AddBuilding(w: World, name: PlayerName, id: ObjId): (r: World)
    ensures PlayersOnly(w, r) && SameResources(w, r)
    ensures PlayerNamed(w, name).Some? ==> PlayerNamed(r, name).Some? && id in PlayerNamed(r, name).value.buildings
    ensures PlayerNamed(w, name).Some? ==> PlayerNamed(r, name).value.maxPopulation == PlayerNamed(w, name).value.maxPopulation
  {
    match PlayerNamed(w, name)
    case None => w
    case Some(p) => ReplacePlayer(w, name, p.(buildings := AddId(p.buildings, id)))
  }

  function DropUnit(w: World, name: PlayerName, id: ObjId): (r: World)
    ensures PlayersOnly(w, r) && SameResources(w, r)
    ensures PlayerNamed(w, name).Some? ==> PlayerNamed(r, name).Some? && id !in PlayerNamed(r, name).value.units
    ensures PlayerNamed(w, name).Some? ==> PlayerNamed(r, name).value.maxPopulation == PlayerNamed(w, name).value.maxPopulation
  {
    match PlayerNamed(w, name)
    case None => w
    case Some(p) => ReplacePlayer(w, name, p.(units := RemoveId(p.units, id)))
  }

  function DropBuilding(w: World, name: PlayerName, id: ObjId): (r: World)
    ensures PlayersOnly(w, r) && SameResources(w, r)
    ensures PlayerNamed(w, name).Some? ==> PlayerNamed(r, name).Some? && id !in PlayerNamed(r, name).value.buildings
    ensures PlayerNamed(w, name).Some? ==> PlayerNamed(r, name).value.maxPopulation == PlayerNamed(w, name).value.maxPopulation
  {
    match PlayerNamed(w, name)
    case None => w
    case Some(p) => ReplacePlayer(w, name, p.(buildings := RemoveId(p.buildings, id)))
  }

  function AdjustMaxPopulation(w: World, name: PlayerName, delta: int): (r: World)
    ensures PlayersOnly(w, r) && SameResources(w, r)
    ensures PlayerNamed(w, name).Some? ==>
              PlayerNamed(r, name).Some? &&
              PlayerNamed(r, name).value.maxPopulation == PlayerNamed(w, name).value.maxPopulation + delta
  {
    match PlayerNamed(w, name)
    case None => w
    case Some(p) => ReplacePlayer(w, name, p.(maxPopulation := p.maxPopulation + delta))
  }

  function SetResources(w: World, name: PlayerName, s: Stock): (r: World)
    ensures PlayersOnly(w, r)
    ensures PlayerNamed(w, name).Some? ==> PlayerNamed(r, name).Some? && PlayerNamed(r, name).value.resources == s
    ensures forall n :: n != name ==> PlayerNamed(r, n) == PlayerNamed(w, n)
  {
    match PlayerNamed(w, name)
    case None => w
    case Some(p) => ReplacePlayer(w, name, p.(resources := s))
  }

  /** Give a fresh id to a new object (Python's allocation of a new instance). */
  function Allocate(w: World, o: GameObject): (r: (World, ObjId))
    ensures r.1 == w.nextId && r.1 in r.0.objects && r.0.objects[r.1] == o
    ensures r.0.nextId > r.1
    ensures r.0.objects.Keys == w.objects.Keys + {r.1}
    ensures r.0.cells == w.cells && r.0.players == w.players && r.0.outbox == w.outbox
  {
    (w.(objects := w.objects[w.nextId := o], nextId := w.nextId + 1), w.nextId)
  }

  /** A new object as `UnitSpawner()` or a class constructor returns it:
      its wire id is its own identity. */
  function Create(w: World, o: GameObject): (r: (World, ObjId))
    ensures r.1 == w.nextId && r.1 in r.0.objects && r.0.objects[r.1] == o.(netId := r.1)
    ensures r.0.objects.Keys == w.objects.Keys + {r.1}
    ensures r.0.cells == w.cells && r.0.players == w.players && r.0.outbox == w.outbox
  {
    Allocate(w, o.(netId := w.nextId))
  }

  function UpdateObject(w: World, id: ObjId, o: GameObject): (r: World)
    ensures r.objects.Keys == w.objects.Keys + {id} && r.objects[id] == o
    ensures forall k :: k in w.objects && k != id ==> r.objects[k] == w.objects[k]
    ensures r.cells == w.cells && r.players == w.players && r.outbox == w.outbox && r.nextId == w.nextId
  {
    w.(objects := w.objects[id := o])
  }

  function Emit(w: World, m: Message): (r: World)
    ensures r.outbox == w.outbox + [m]
    ensures r.objects == w.objects && r.cells == w.cells && r.players == w.players && r.nextId == w.nextId
  {
    w.(outbox := w.outbox + [m])
  }
}
