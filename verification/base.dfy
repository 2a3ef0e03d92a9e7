/** Shared vocabulary of the engine model: optional values, results carrying
    the exception kind the Python code would raise, grid coordinates,
    resource stocks, process kinds and the opaque map collaborators. */
module Base {

  datatype Option<+T> = None | Some(value: T) {
    function GetOr(default: T): T {
      match this
      case Some(v) => v
      case None => default
    }
  }

  /** The reasons an operation of the engine is rejected. Each one stands
      for the Python exception named in its class (see `Class`). */
  datatype Error =
    | Busy                // entity already collecting or building
    | CoolingDown         // same MOVE/ATTACK already registered
    | PopulationLimit
    | NotEnoughResources
    | InvalidPlacement
    | OutOfRange
    | NoTarget
    | SameTeam
    | NotAResource
    | NotABuilding
    | NotADropPoint
    | BadNumber           // int() on a malformed string
    | MissingAttribute    // a method called on None or on the wrong kind of object
    | PathExhausted       // list index out of range
    | MissingKey          // dict lookup of an absent key
    | WrongArity          // Coordinate(*parts) with a part count other than two
    | WrongType           // a JSON value of the wrong type indexed or counted over
    | UnknownAction       // InteractionsTypes(v) for a value no member has
    | NotListed           // list.remove(x) with x absent

  /** Python exception classes; the loops catch by class. */
  datatype ErrorClass = ValueErr | AttributeErr | IndexErr | KeyErr | TypeErr

  function Class(e: Error): ErrorClass {
    match e
    case MissingAttribute => AttributeErr
    case PathExhausted => IndexErr
    case MissingKey => KeyErr
    case WrongArity => TypeErr
    case WrongType => TypeErr
    case _ => ValueErr
  }

  datatype Result<+T> = Ok(value: T) | Err(error: Error) {
    predicate IsFailure() { Err? }

    function PropagateFailure<U>(): Result<U>
      requires Err?
    {
      Err(error)
    }

    function Extract(): T
      requires Ok?
    {
      value
    }
  }

  datatype Coord = Coord(x: int, y: int)

  /** `Coordinate + k` shifts both components. */
  function Shift(c: Coord, k: int): Coord {
    Coord(c.x + k, c.y + k)
  }

  datatype ResourceType = Food | Wood | Gold

  /** A resource ledger or a cost table; an absent entry reads as zero. */
  datatype Stock = Stock(food: int, wood: int, gold: int) {
    function Get(r: ResourceType): int {
      match r
      case Food => food
      case Wood => wood
      case Gold => gold
    }

    function Set(r: ResourceType, v: int): (s: Stock)
      ensures s.Get(r) == v
      ensures forall q :: q != r ==> s.Get(q) == Get(q)
    {
      match r
      case Food => this.(food := v)
      case Wood => this.(wood := v)
      case Gold => this.(gold := v)
    }
  }

  const NoStock: Stock := Stock(0, 0, 0)

  function Plus(a: Stock, b: Stock): (s: Stock)
    ensures forall r :: s.Get(r) == a.Get(r) + b.Get(r)
  {
    Stock(a.food + b.food, a.wood + b.wood, a.gold + b.gold)
  }

  function Minus(a: Stock, b: Stock): (s: Stock)
    ensures forall r :: s.Get(r) == a.Get(r) - b.Get(r)
  {
    Stock(a.food - b.food, a.wood - b.wood, a.gold - b.gold)
  }

  /** `all(player.check_consume(r, n) for r, n in cost.items())`. */
  predicate Affordable(have: Stock, cost: Stock) {
    forall r: ResourceType :: have.Get(r) >= cost.Get(r)
  }

  datatype Process = Spawn | Move | Attack | Collect | Drop | Build

  type ObjId = nat
  type Cid = nat
  type PlayerName = string

  /** The map collaborators, whose internals are not part of this model:
      adjacency, distance and range tests, placement validation, the three
      path finders and the nearest-empty-zone query. */
  datatype Geometry = Geometry(
    adjacent: (Coord, Coord) -> bool,
    distance: (Coord, Coord) -> int,
    inRange: (Coord, Coord, int) -> bool,
    placementOk: (map<Coord, ObjId>, nat, Coord) -> bool,
    path: (map<Coord, ObjId>, Coord, Coord) -> seq<Coord>,
    pathNonDiagonal: (map<Coord, ObjId>, Coord, Coord) -> seq<Coord>,
    pathAvoid: (map<Coord, ObjId>, Coord, Coord, Coord, Coord) -> seq<Coord>,
    nearestEmpty: (map<Coord, ObjId>, Coord, nat) -> seq<Coord>
  )
}
