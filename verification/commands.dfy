/** The six commands (the files under model/commands) and their construction by
    controller/command_controller.py: each command registers itself in the
    shared list when built, validates on its first run, counts its tick
    down by one per run and applies its effect once the tick reaches zero. */
module Commands {
  import opened Base
  import opened World
  import opened Ledger
  import Interactions

  /** Units a building produces (model/commands/unit_spawner.py). */
  datatype UnitKind = Villager | Swordsman | Archer | Horseman

  /** The `UnitSpawner` table, keyed by building name. */
  function Produces(building: string): Option<UnitKind> {
    if building == "Town Center" then Some(Villager)
    else if building == "Barracks" then Some(Swordsman)
    else if building == "Archery Range" then Some(Archer)
    else if building == "Stable" then Some(Horseman)
    else None
  }

  /** Game settings: the time-to-tick coefficient (frames per second) and
      the unit classes' templates. */
  datatype Config = Config(coeff: nat, unitTemplate: UnitKind -> GameObject)

  /** The per-process part of a command. The placeholder is the
      "Place Holder" object, given an id when it is first placed. */
  datatype Job =
    | SpawnJob(unit: UnitKind, placeholder: Option<ObjId>)
    | MoveJob
    | AttackJob
    | CollectJob
    | DropJob
    | BuildJob(building: ObjId, placeholder: Option<ObjId>)

  function ProcessOf(j: Job): Process {
    match j
    case SpawnJob(_, _) => Spawn
    case MoveJob => Move
    case AttackJob => Attack
    case CollectJob => Collect
    case DropJob => Drop
    case BuildJob(_, _) => Build
  }

  datatype Command = Command(
    key: Entry,
    player: PlayerName,
    tick: int,
    target: Coord,
    start: bool,
    job: Job)

  /** The world, every command object ever built (tasks keep references to
      commands that have left the list) and the shared command list. */
  datatype CommandState = CommandState(
    world: World,
    heap: map<Cid, Command>,
    ledger: seq<Entry>,
    nextCid: Cid)

  /** The objects a command refers to exist. */
  predicate Runnable(w: World, c: Command) {
    c.key.entity in w.objects &&
    (c.job.BuildJob? ==> c.job.building in w.objects) &&
    ((c.job.SpawnJob? || c.job.BuildJob?) && c.job.placeholder.Some? ==> c.job.placeholder.value in w.objects)
  }

  /** The heap and the list agree, and every command can run. */
  predicate Consistent(cs: CommandState) {
    (forall c :: c in cs.heap ==> cs.heap[c].key.cid == c && c < cs.nextCid && Runnable(cs.world, cs.heap[c])
                                  && cs.heap[c].key.process == ProcessOf(cs.heap[c].job)) &&
    (forall k :: 0 <= k < |cs.ledger| ==> cs.ledger[k].cid in cs.heap && cs.heap[cs.ledger[k].cid].key == cs.ledger[k]) &&
    Valid(cs.ledger)
  }

  // ---------------------------------------------------------------------
  // Construction

  /** The tick budget a new command starts with, or the error its
      constructor raises before registering. */
  function Budget(w: World, cfg: Config, entity: ObjId, p: Process, building: Option<ObjId>): (r: Result<int>)
    requires entity in w.objects
    ensures p == Spawn ==> (r.Ok? <==> Produces(w.objects[entity].name).Some?)
    ensures p == Spawn && r.Ok? ==>
              r.value == cfg.unitTemplate(Produces(w.objects[entity].name).value).spawnTime * cfg.coeff
    ensures p == Build ==> (r.Ok? <==> building.Some? && building.value in w.objects)
    ensures p == Build && r.Ok? ==> r.value == w.objects[building.value].spawnTime * cfg.coeff
    ensures p == Move ==> (r.Ok? <==> w.objects[entity].IsUnit())
    ensures p == Attack ==> r == Ok(cfg.coeff)
    ensures p == Collect ==> r.Ok? && r.value * 60 <= 25 * cfg.coeff < (r.value + 1) * 60
    ensures p == Drop ==> r == Ok(0)
    ensures r.Err? ==> r.error == MissingKey || r.error == MissingAttribute
  {
    var o := w.objects[entity];
    match p
    case Spawn =>
      (match Produces(o.name)
       case None => Err(MissingKey)
       case Some(k) => Ok(cfg.unitTemplate(k).spawnTime * cfg.coeff))
    case Move => if o.IsUnit() then Ok(o.stats.moveTicks) else Err(MissingAttribute)
    case Attack => Ok(1 * cfg.coeff)
    case Collect => Ok((25 * cfg.coeff) / 60)
    case Drop => Ok(0)
    case Build =>
      if building.Some? && building.value in w.objects then Ok(w.objects[building.value].spawnTime * cfg.coeff)
      else Err(MissingAttribute)
  }

  function JobFor(w: World, entity: ObjId, p: Process, building: Option<ObjId>): (j: Job)
    requires entity in w.objects
    requires p == Spawn ==> Produces(w.objects[entity].name).Some?
    requires p == Build ==> building.Some?
    ensures ProcessOf(j) == p
  {
    match p
    case Spawn => SpawnJob(Produces(w.objects[entity].name).value, None)
    case Move => MoveJob
    case Attack => AttackJob
    case Collect => CollectJob
    case Drop => DropJob
    case Build => BuildJob(building.value, None)
  }

  /** `CommandController.command`: build the command for the process (only
      BUILD reads `building`); the constructor registers it, so a returned
      command is always in the list, and a conflict reaches the caller with
      nothing registered. */
  function Issue(cs: CommandState, cfg: Config, player: PlayerName, entity: ObjId, p: Process,
                 target: Coord, building: Option<ObjId>): (r: Result<(CommandState, Cid)>)
    requires entity in cs.world.objects
    ensures r.Ok? <==> Budget(cs.world, cfg, entity, p, building).Ok? && Register(cs.ledger, Entry(cs.nextCid, entity, p)).Ok?
    ensures r.Err? && Budget(cs.world, cfg, entity, p, building).Err? ==> r.error == Budget(cs.world, cfg, entity, p, building).error
    ensures r.Err? && Budget(cs.world, cfg, entity, p, building).Ok? ==> r.error == Busy || r.error == CoolingDown
    ensures r.Ok? ==>
              var (s, cid) := r.value;
              cid == cs.nextCid && s.nextCid == cs.nextCid + 1 && s.world == cs.world &&
              s.ledger == cs.ledger + [Entry(cid, entity, p)] &&
              cid in s.heap && s.heap == cs.heap[cid := s.heap[cid]] &&
              s.heap[cid].key == Entry(cid, entity, p) && s.heap[cid].player == player &&
              s.heap[cid].target == target && s.heap[cid].start &&
              s.heap[cid].tick == Budget(cs.world, cfg, entity, p, building).value &&
              ProcessOf(s.heap[cid].job) == p &&
              (p == Build ==> s.heap[cid].job == BuildJob(building.value, None))
  {
    var e := Entry(cs.nextCid, entity, p);
    match Budget(cs.world, cfg, entity, p, building)
    case Err(err) => Err(err)
    case Ok(tick) =>
      match Register(cs.ledger, e)
      case Err(err) => Err(err)
      case Ok(l) =>
        var c := Command(e, player, tick, target, true, JobFor(cs.world, entity, p, building));
        Ok((cs.(heap := cs.heap[e.cid := c], ledger := l, nextCid := cs.nextCid + 1), e.cid))
  }

  /** Issuing keeps the state consistent. */
  lemma IssuePreservesConsistent(cs: CommandState, cfg: Config, player: PlayerName, entity: ObjId, p: Process,
                                 target: Coord, building: Option<ObjId>)
    requires Consistent(cs) && entity in cs.world.objects
    requires Issue(cs, cfg, player, entity, p, target, building).Ok?
    ensures Consistent(Issue(cs, cfg, player, entity, p, target, building).value.0)
  {
    var e := Entry(cs.nextCid, entity, p);
    var s := Issue(cs, cfg, player, entity, p, target, building).value.0;
    forall k | 0 <= k < |cs.ledger| ensures cs.ledger[k].cid != e.cid {
      assert cs.ledger[k].cid in cs.heap;
    }
    RegisterPreservesValid(cs.ledger, e);
  }

  // ---------------------------------------------------------------------
  // Running

  /** The result of `run_command`: it either returns or raises, and a raise
      keeps whatever was changed before it. */
  datatype RunOutcome = Ran(cs: CommandState) | Raised(cs: CommandState, error: Error)

  function Store(cs: CommandState, c: Command): CommandState {
    cs.(heap := cs.heap[c.key.cid := c])
  }

  function Unlist(cs: CommandState, e: Entry): CommandState {
    cs.(ledger := Remove(cs.ledger, e))
  }

  /** What every run keeps: the heap's other commands, the command's own
      identity, the list up to removing this command, the objects, and a
      counter that moves by exactly one on a returning run. */
  predicate Settles(cs: CommandState, cid: Cid, r: RunOutcome)
    requires cid in cs.heap
  {
    var c := cs.heap[cid];
    r.cs.heap.Keys == cs.heap.Keys &&
    (forall d :: d in cs.heap && d != cid ==> r.cs.heap[d] == cs.heap[d]) &&
    r.cs.heap[cid].key == c.key && r.cs.heap[cid].player == c.player && r.cs.heap[cid].target == c.target &&
    ProcessOf(r.cs.heap[cid].job) == ProcessOf(c.job) &&
    (r.cs.ledger == cs.ledger || r.cs.ledger == Remove(cs.ledger, c.key)) &&
    r.cs.nextCid == cs.nextCid &&
    cs.world.objects.Keys <= r.cs.world.objects.Keys &&
    Runnable(r.cs.world, r.cs.heap[cid]) &&
    (r.Ran? && !c.job.DropJob? ==> r.cs.heap[cid].tick == c.tick - 1) &&
    (r.Raised? || c.job.DropJob? ==> r.cs.heap[cid].tick == c.tick)
  }

  /** The first-run checks of a SPAWN, in source order. */
  function SpawnCheck(w: World, cfg: Config, g: Geometry, c: Command): Result<Player>
    requires c.job.SpawnJob?
  {
    match PlayerNamed(w, c.player)
    case None => Err(MissingAttribute)
    case Some(p) =>
      if |p.units| >= p.maxPopulation then Err(PopulationLimit)
      else if !Affordable(p.resources, cfg.unitTemplate(c.job.unit).cost) then Err(NotEnoughResources)
      else if !g.placementOk(w.cells, PlaceHolder(1).size, c.target) then Err(InvalidPlacement)
      else Ok(p)
  }

  /** What a SPAWN does once its tick is out while it is still registered:
      the placeholder gives way to a fresh unit that joins the player. */
  function SpawnComplete(w: World, cfg: Config, c: Command): (r: World)
    requires c.job.SpawnJob? && Runnable(w, c)
    ensures r.nextId == w.nextId + 1 && r.objects.Keys == w.objects.Keys + {w.nextId}
    ensures ObjectAt(r, c.target) == Some(w.nextId)
    ensures r.objects[w.nextId] == cfg.unitTemplate(c.job.unit).(netId := w.nextId, coord := Some(c.target), owner := Some(c.player))
    ensures SameResources(w, r)
  {
    var w1 := match c.job.placeholder
              case Some(ph) => Interactions.RemoveObject(w, ph)
              case None => w;
    var (w2, u) := Create(w1, cfg.unitTemplate(c.job.unit));
    var w3 := Interactions.PlaceObject(w2, u, c.target);
    Interactions.LinkOwner(w3, c.player, u)
  }

  function RunSpawn(cs: CommandState, cfg: Config, g: Geometry, cid: Cid): (r: RunOutcome)
    requires cid in cs.heap && cs.heap[cid].key.cid == cid && cs.heap[cid].job.SpawnJob? && Runnable(cs.world, cs.heap[cid])
    ensures Settles(cs, cid, r)
  {
    var c := cs.heap[cid];
    if c.start then
      var c1 := c.(start := false);
      match SpawnCheck(cs.world, cfg, g, c)
      case Err(err) => Raised(Unlist(Store(cs, c1), c.key), err)
      case Ok(p) =>
        var w1 := SetResources(cs.world, c.player, Minus(p.resources, cfg.unitTemplate(c.job.unit).cost));
        var (w2, ph) := Create(w1, PlaceHolder(1));
        var w3 := Interactions.PlaceObject(w2, ph, c.target);
        SpawnCountdown(cs.(world := w3), cfg, c1.(job := SpawnJob(c.job.unit, Some(ph))))
    else SpawnCountdown(cs, cfg, c)
  }

  function SpawnCountdown(cs: CommandState, cfg: Config, c: Command): (r: RunOutcome)
    requires c.job.SpawnJob? && Runnable(cs.world, c)
    ensures r.Ran? && r.cs.heap == cs.heap[c.key.cid := c.(tick := c.tick - 1)] && r.cs.nextCid == cs.nextCid
    ensures r.cs.ledger == cs.ledger || r.cs.ledger == Remove(cs.ledger, c.key)
    ensures cs.world.objects.Keys <= r.cs.world.objects.Keys
  {
    var cs1 := if c.tick <= 0 && c.key in cs.ledger
               then Unlist(cs.(world := SpawnComplete(cs.world, cfg, c)), c.key)
               else cs;
    Ran(Store(cs1, c.(tick := c.tick - 1)))
  }

  /** What a BUILD does once its tick is out while it is still registered:
      the placeholder gives way to the building, which joins the player and
      may raise the population cap. */
  function BuildComplete(w: World, c: Command): (r: World)
    requires c.job.BuildJob? && Runnable(w, c)
    ensures r.objects.Keys == w.objects.Keys
    ensures ObjectAt(r, c.target) == Some(c.job.building)
    ensures r.objects[c.job.building].owner == Some(c.player)
    ensures SameResources(w, r)
    ensures PlayerNamed(w, c.player).Some? ==>
              var b := w.objects[c.job.building];
              PlayerNamed(r, c.player).Some? &&
              PlayerNamed(r, c.player).value.maxPopulation ==
                PlayerNamed(w, c.player).value.maxPopulation + (if b.IsBuilding() && b.stats.popIncrease then b.stats.capacity else 0)
  {
    var b := c.job.building;
    var w1 := match c.job.placeholder
              case Some(ph) => Interactions.RemoveObject(w, ph)
              case None => w;
    var w2 := Interactions.PlaceObject(w1, b, c.target);
    var w3 := Emit(w2, CommandSent(Build, c.key.entity));
    var w4 := Interactions.LinkOwner(w3, c.player, b);
    var o := w.objects[b];
    if o.IsBuilding() && o.stats.popIncrease then AdjustMaxPopulation(w4, c.player, o.stats.capacity) else w4
  }

  function RunBuild(cs: CommandState, g: Geometry, cid: Cid): (r: RunOutcome)
    requires cid in cs.heap && cs.heap[cid].key.cid == cid && cs.heap[cid].job.BuildJob? && Runnable(cs.world, cs.heap[cid])
    ensures Settles(cs, cid, r)
  {
    var c := cs.heap[cid];
    var here := cs.world.objects[c.key.entity].coord;
    if here.None? then Raised(cs, MissingAttribute)
    else if !g.adjacent(here.value, c.target) then Raised(Unlist(cs, c.key), OutOfRange)
    else if c.start then
      var c1 := c.(start := false);
      var cost := cs.world.objects[c.job.building].cost;
      match PlayerNamed(cs.world, c.player)
      case None => Raised(Store(cs, c1), MissingAttribute)
      case Some(p) =>
        if !Affordable(p.resources, cost) then Raised(Unlist(Store(cs, c1), c.key), NotEnoughResources)
        else
          var w1 := SetResources(cs.world, c.player, Minus(p.resources, cost));
          var (w2, ph) := Create(w1, PlaceHolder(cs.world.objects[c.job.building].size));
          var w3 := Emit(Interactions.PlaceObject(w2, ph, c.target), CommandSent(Build, c.key.entity));
          BuildCountdown(cs.(world := w3), c1.(job := BuildJob(c.job.building, Some(ph))))
    else BuildCountdown(cs, c)
  }

  function BuildCountdown(cs: CommandState, c: Command): (r: RunOutcome)
    requires c.job.BuildJob? && Runnable(cs.world, c)
    ensures r.Ran? && r.cs.heap == cs.heap[c.key.cid := c.(tick := c.tick - 1)] && r.cs.nextCid == cs.nextCid
    ensures r.cs.ledger == cs.ledger || r.cs.ledger == Remove(cs.ledger, c.key)
    ensures cs.world.objects.Keys <= r.cs.world.objects.Keys
  {
    var cs1 := if c.tick <= 0 then
                 var w1 := if c.key in cs.ledger then BuildComplete(cs.world, c) else cs.world;
                 Unlist(cs.(world := w1), c.key)
               else cs;
    Ran(Store(cs1, c.(tick := c.tick - 1)))
  }

  /** The countdown shared by MOVE and ATTACK: leave the list at tick <= 0,
      then decrement. */
  function Countdown(cs: CommandState, c: Command): RunOutcome {
    var cs1 := if c.tick <= 0 then Unlist(cs, c.key) else cs;
    Ran(Store(cs1, c.(tick := c.tick - 1)))
  }

  function RunMove(cs: CommandState, cid: Cid): (r: RunOutcome)
    requires cid in cs.heap && cs.heap[cid].key.cid == cid && cs.heap[cid].job.MoveJob? && Runnable(cs.world, cs.heap[cid])
    ensures Settles(cs, cid, r)
  {
    var c := cs.heap[cid];
    if c.start then
      var c1 := c.(start := false);
      var eff := Interactions.MoveUnit(cs.world, c.key.entity, c.target);
      match eff.raised
      case Some(err) => Raised(Store(cs.(world := eff.world), c1), err)
      case None => Countdown(cs.(world := Emit(eff.world, CommandSent(Move, c.key.entity))), c1)
    else Countdown(cs, c)
  }

  function RunAttack(cs: CommandState, g: Geometry, cid: Cid): (r: RunOutcome)
    requires cid in cs.heap && cs.heap[cid].key.cid == cid && cs.heap[cid].job.AttackJob? && Runnable(cs.world, cs.heap[cid])
    ensures Settles(cs, cid, r)
  {
    var c := cs.heap[cid];
    if c.start then
      var c1 := c.(start := false);
      var eff := Interactions.Attack(cs.world, g, c.key.entity, c.target);
      match eff.raised
      case Some(err) => Raised(Store(cs.(world := eff.world), c1), err)
      case None => Countdown(cs.(world := eff.world), c1)
    else Countdown(cs, c)
  }

  function RunCollect(cs: CommandState, g: Geometry, cid: Cid): (r: RunOutcome)
    requires cid in cs.heap && cs.heap[cid].key.cid == cid && cs.heap[cid].job.CollectJob? && Runnable(cs.world, cs.heap[cid])
    ensures Settles(cs, cid, r)
  {
    var c := cs.heap[cid];
    if c.tick <= 0 && c.key in cs.ledger then
      var eff := Interactions.CollectResource(cs.world, g, c.key.entity, c.target, 1);
      match eff.raised
      case Some(err) => Raised(cs.(world := eff.world), err)
      case None =>
        var cs1 := Unlist(cs.(world := Emit(eff.world, CommandSent(Collect, c.key.entity))), c.key);
        Ran(Store(cs1, c.(tick := c.tick - 1)))
    else Ran(Store(cs, c.(tick := c.tick - 1)))
  }

  function RunDrop(cs: CommandState, g: Geometry, cid: Cid): (r: RunOutcome)
    requires cid in cs.heap && cs.heap[cid].key.cid == cid && cs.heap[cid].job.DropJob? && Runnable(cs.world, cs.heap[cid])
    ensures Settles(cs, cid, r)
  {
    var c := cs.heap[cid];
    match Interactions.DropResource(cs.world, g, c.player, c.key.entity, c.target)
    case Err(err) => Raised(cs, err)
    case Ok(w) => Ran(Unlist(cs.(world := w), c.key))
  }

  /** `command.run_command()` for the command with this id. */
  function Run(cs: CommandState, cfg: Config, g: Geometry, cid: Cid): (r: RunOutcome)
    requires cid in cs.heap && cs.heap[cid].key.cid == cid && Runnable(cs.world, cs.heap[cid])
    ensures Settles(cs, cid, r)
    ensures forall d :: d in cs.heap && Runnable(cs.world, cs.heap[d]) ==> Runnable(r.cs.world, cs.heap[d])
  {
    var c := cs.heap[cid];
    match c.job
    case SpawnJob(_, _) => RunSpawn(cs, cfg, g, cid)
    case BuildJob(_, _) => RunBuild(cs, g, cid)
    case MoveJob => RunMove(cs, cid)
    case AttackJob => RunAttack(cs, g, cid)
    case CollectJob => RunCollect(cs, g, cid)
    case DropJob => RunDrop(cs, g, cid)
  }

  // ---------------------------------------------------------------------
  // Properties of a single run

  /** A SPAWN that fails a first-run check leaves the list, raises that
      check's error, and deducts and places nothing. */
  lemma SpawnRejectionChangesNothing(cs: CommandState, cfg: Config, g: Geometry, cid: Cid)
    requires cid in cs.heap && cs.heap[cid].key.cid == cid && Runnable(cs.world, cs.heap[cid])
    requires cs.heap[cid].job.SpawnJob? && cs.heap[cid].start
    requires SpawnCheck(cs.world, cfg, g, cs.heap[cid]).Err?
    ensures Run(cs, cfg, g, cid).Raised?
    ensures Run(cs, cfg, g, cid).error == SpawnCheck(cs.world, cfg, g, cs.heap[cid]).error
    ensures Run(cs, cfg, g, cid).cs.world == cs.world
    ensures Run(cs, cfg, g, cid).cs.ledger == Remove(cs.ledger, cs.heap[cid].key)
  {
  }

  /** A SPAWN's first run that passes the checks deducts the unit's cost
      exactly once and puts a placeholder on the target. */
  lemma SpawnFirstRunDeducts(cs: CommandState, cfg: Config, g: Geometry, cid: Cid)
    requires cid in cs.heap && cs.heap[cid].key.cid == cid && Runnable(cs.world, cs.heap[cid])
    requires cs.heap[cid].job.SpawnJob? && cs.heap[cid].start
    requires SpawnCheck(cs.world, cfg, g, cs.heap[cid]).Ok?
    ensures Run(cs, cfg, g, cid).Ran?
    ensures var c := cs.heap[cid];
            var before := PlayerNamed(cs.world, c.player).value;
            var after := PlayerNamed(Run(cs, cfg, g, cid).cs.world, c.player);
            after.Some? && after.value.resources == Minus(before.resources, cfg.unitTemplate(c.job.unit).cost)
    ensures cs.heap[cid].tick > 0 ==>
              var w := Run(cs, cfg, g, cid).cs.world;
              ObjectAt(w, cs.heap[cid].target) == Some(cs.world.nextId) &&
              w.objects[cs.world.nextId].name == PlaceHolderName
  {
    var c := cs.heap[cid];
    var p := SpawnCheck(cs.world, cfg, g, c).value;
    var w1 := SetResources(cs.world, c.player, Minus(p.resources, cfg.unitTemplate(c.job.unit).cost));
    var (w2, ph) := Create(w1, PlaceHolder(1));
    var w3 := Interactions.PlaceObject(w2, ph, c.target);
    var r := SpawnCountdown(cs.(world := w3), cfg, c.(start := false, job := SpawnJob(c.job.unit, Some(ph))));
    assert Run(cs, cfg, g, cid) == r;
    assert SameResources(w1, w3);
    SameResourcesLookup(w1, r.cs.world, c.player);
  }

  /** Validation and deduction happen at most once: a later SPAWN run never
      raises and never touches any player's resources. */
  lemma SpawnValidatesOnce(cs: CommandState, cfg: Config, g: Geometry, cid: Cid)
    requires cid in cs.heap && cs.heap[cid].key.cid == cid && Runnable(cs.world, cs.heap[cid])
    requires cs.heap[cid].job.SpawnJob? && !cs.heap[cid].start
    ensures Run(cs, cfg, g, cid).Ran?
    ensures SameResources(cs.world, Run(cs, cfg, g, cid).cs.world)
    ensures cs.heap[cid].tick > 0 ==> Run(cs, cfg, g, cid).cs.world == cs.world
  {
  }

  /** At tick <= 0 a registered SPAWN puts a fresh unit of the building's
      kind on the target, owned by the player, and leaves the list. */
  lemma SpawnCompletes(cs: CommandState, cfg: Config, g: Geometry, cid: Cid)
    requires Consistent(cs) && cid in cs.heap
    requires cs.heap[cid].job.SpawnJob? && !cs.heap[cid].start && cs.heap[cid].tick <= 0
    requires cs.heap[cid].key in cs.ledger
    ensures var r := Run(cs, cfg, g, cid); var u := cs.world.nextId; var c := cs.heap[cid];
            r.Ran? && ObjectAt(r.cs.world, c.target) == Some(u) &&
            r.cs.world.objects[u].owner == Some(c.player) &&
            r.cs.world.objects[u].name == cfg.unitTemplate(c.job.unit).name &&
            c.key !in r.cs.ledger
  {
    RemoveShape(cs.ledger, cs.heap[cid].key);
  }

  /** A BUILD whose builder is not adjacent to the target leaves the list
      and raises, whatever its tick and start flag. */
  lemma BuildNeedsAdjacency(cs: CommandState, cfg: Config, g: Geometry, cid: Cid)
    requires cid in cs.heap && cs.heap[cid].key.cid == cid && Runnable(cs.world, cs.heap[cid])
    requires cs.heap[cid].job.BuildJob?
    requires var here := cs.world.objects[cs.heap[cid].key.entity].coord;
             here.Some? && !g.adjacent(here.value, cs.heap[cid].target)
    ensures Run(cs, cfg, g, cid) == Raised(Unlist(cs, cs.heap[cid].key), OutOfRange)
  {
  }

  /** An unaffordable BUILD leaves the list on its first run with nothing
      deducted or placed. */
  lemma BuildRejectionChangesNothing(cs: CommandState, cfg: Config, g: Geometry, cid: Cid)
    requires cid in cs.heap && cs.heap[cid].key.cid == cid && Runnable(cs.world, cs.heap[cid])
    requires cs.heap[cid].job.BuildJob? && cs.heap[cid].start
    requires var here := cs.world.objects[cs.heap[cid].key.entity].coord;
             here.Some? && g.adjacent(here.value, cs.heap[cid].target)
    requires var p := PlayerNamed(cs.world, cs.heap[cid].player);
             p.Some? && !Affordable(p.value.resources, cs.world.objects[cs.heap[cid].job.building].cost)
    ensures Run(cs, cfg, g, cid).Raised? && Run(cs, cfg, g, cid).error == NotEnoughResources
    ensures Run(cs, cfg, g, cid).cs.world == cs.world
    ensures Run(cs, cfg, g, cid).cs.ledger == Remove(cs.ledger, cs.heap[cid].key)
  {
  }

  /** An affordable BUILD's first run deducts the building's cost once. */
  lemma BuildFirstRunDeducts(cs: CommandState, cfg: Config, g: Geometry, cid: Cid)
    requires cid in cs.heap && cs.heap[cid].key.cid == cid && Runnable(cs.world, cs.heap[cid])
    requires cs.heap[cid].job.BuildJob? && cs.heap[cid].start
    requires var here := cs.world.objects[cs.heap[cid].key.entity].coord;
             here.Some? && g.adjacent(here.value, cs.heap[cid].target)
    requires var p := PlayerNamed(cs.world, cs.heap[cid].player);
             p.Some? && Affordable(p.value.resources, cs.world.objects[cs.heap[cid].job.building].cost)
    ensures Run(cs, cfg, g, cid).Ran?
    ensures var c := cs.heap[cid];
            var before := PlayerNamed(cs.world, c.player).value;
            var after := PlayerNamed(Run(cs, cfg, g, cid).cs.world, c.player);
            after.Some? && after.value.resources == Minus(before.resources, cs.world.objects[c.job.building].cost)
  {
    var c := cs.heap[cid];
    var p := PlayerNamed(cs.world, c.player).value;
    var o := cs.world.objects[c.job.building];
    var w1 := SetResources(cs.world, c.player, Minus(p.resources, o.cost));
    var (w2, ph) := Create(w1, PlaceHolder(o.size));
    var w3 := Emit(Interactions.PlaceObject(w2, ph, c.target), CommandSent(Build, c.key.entity));
    var r := BuildCountdown(cs.(world := w3), c.(start := false, job := BuildJob(c.job.building, Some(ph))));
    assert Run(cs, cfg, g, cid) == r;
    SameResourcesLookup(w3, r.cs.world, c.player);
  }

  /** At tick <= 0 a registered BUILD puts the building on the target,
      hands it to the player, raises the population cap by the building's
      capacity exactly when it increases population, and leaves the list. */
  lemma BuildCompletes(cs: CommandState, cfg: Config, g: Geometry, cid: Cid)
    requires Consistent(cs) && cid in cs.heap
    requires cs.heap[cid].job.BuildJob? && !cs.heap[cid].start && cs.heap[cid].tick <= 0
    requires var here := cs.world.objects[cs.heap[cid].key.entity].coord;
             here.Some? && g.adjacent(here.value, cs.heap[cid].target)
    requires cs.heap[cid].key in cs.ledger
    requires PlayerNamed(cs.world, cs.heap[cid].player).Some?
    ensures var r := Run(cs, cfg, g, cid); var c := cs.heap[cid]; var b := cs.world.objects[c.job.building];
            r.Ran? && ObjectAt(r.cs.world, c.target) == Some(c.job.building) &&
            r.cs.world.objects[c.job.building].owner == Some(c.player) &&
            c.key !in r.cs.ledger &&
            PlayerNamed(r.cs.world, c.player).Some? &&
            PlayerNamed(r.cs.world, c.player).value.maxPopulation ==
              PlayerNamed(cs.world, c.player).value.maxPopulation + (if b.IsBuilding() && b.stats.popIncrease then b.stats.capacity else 0)
  {
    RunIsBuild(cs, cfg, g, cid);
    BuilderCompletes(cs, g, cid);
  }

  /** A BUILD runs as `RunBuild`. */
  lemma RunIsBuild(cs: CommandState, cfg: Config, g: Geometry, cid: Cid)
    requires cid in cs.heap && cs.heap[cid].key.cid == cid && Runnable(cs.world, cs.heap[cid])
    requires cs.heap[cid].job.BuildJob?
    ensures Run(cs, cfg, g, cid) == RunBuild(cs, g, cid)
  {
  }

  lemma BuilderCompletes(cs: CommandState, g: Geometry, cid: Cid)
    requires cid in cs.heap && cs.heap[cid].key.cid == cid && Runnable(cs.world, cs.heap[cid])
    requires cs.heap[cid].key in cs.ledger && DistinctIds(cs.ledger)
    requires cs.heap[cid].job.BuildJob? && !cs.heap[cid].start && cs.heap[cid].tick <= 0
    requires var here := cs.world.objects[cs.heap[cid].key.entity].coord;
             here.Some? && g.adjacent(here.value, cs.heap[cid].target)
    requires PlayerNamed(cs.world, cs.heap[cid].player).Some?
    ensures var r := RunBuild(cs, g, cid); var c := cs.heap[cid]; var b := cs.world.objects[c.job.building];
            r.Ran? && ObjectAt(r.cs.world, c.target) == Some(c.job.building) &&
            r.cs.world.objects[c.job.building].owner == Some(c.player) &&
            c.key !in r.cs.ledger &&
            PlayerNamed(r.cs.world, c.player).Some? &&
            PlayerNamed(r.cs.world, c.player).value.maxPopulation ==
              PlayerNamed(cs.world, c.player).value.maxPopulation + (if b.IsBuilding() && b.stats.popIncrease then b.stats.capacity else 0)
  {
    RemoveShape(cs.ledger, cs.heap[cid].key);
  }

  /** A MOVE moves its unit on the first run only; later runs leave the
      world alone. */
  lemma MoveOnFirstRunOnly(cs: CommandState, cfg: Config, g: Geometry, cid: Cid)
    requires cid in cs.heap && cs.heap[cid].key.cid == cid && Runnable(cs.world, cs.heap[cid])
    requires cs.heap[cid].job.MoveJob?
    ensures cs.heap[cid].start ==>
              Run(cs, cfg, g, cid).cs.world.objects[cs.heap[cid].key.entity].coord == Some(cs.heap[cid].target)
    ensures !cs.heap[cid].start ==> Run(cs, cfg, g, cid).Ran? && Run(cs, cfg, g, cid).cs.world == cs.world
  {
  }

  /** An ATTACK attacks on its first run only, and clears its start flag
      before attacking, so a failed attack is never retried. */
  lemma AttackOnFirstRunOnly(cs: CommandState, cfg: Config, g: Geometry, cid: Cid)
    requires cid in cs.heap && cs.heap[cid].key.cid == cid && Runnable(cs.world, cs.heap[cid])
    requires cs.heap[cid].job.AttackJob?
    ensures !Run(cs, cfg, g, cid).cs.heap[cid].start
    ensures cs.heap[cid].start ==>
              Run(cs, cfg, g, cid).cs.world == Interactions.Attack(cs.world, g, cs.heap[cid].key.entity, cs.heap[cid].target).world
    ensures !cs.heap[cid].start ==> Run(cs, cfg, g, cid).Ran? && Run(cs, cfg, g, cid).cs.world == cs.world
  {
  }

  /** The first run of an ATTACK that leaves an owned target without hit
      points takes the target off the map and out of its owner's units or
      buildings, and a population-increasing building lowers the cap. */
  lemma KilledTargetLeavesRoster(cs: CommandState, cfg: Config, g: Geometry, cid: Cid)
    requires cid in cs.heap && cs.heap[cid].key.cid == cid && Runnable(cs.world, cs.heap[cid])
    requires cs.heap[cid].job.AttackJob? && cs.heap[cid].start
    ensures var a := cs.heap[cid].key.entity;
            var check := Interactions.AttackCheck(cs.world, g, a, cs.heap[cid].target);
            check.Ok? && cs.world.objects[a].owner.Some? &&
            cs.world.objects[check.value].hp - cs.world.objects[a].stats.attack <= 0 ==>
              var after := Run(cs, cfg, g, cid).cs.world;
              check.value in after.objects && after.objects[check.value].coord.None? &&
              Interactions.Fallen(cs.world, check.value, after)
  {
    AttackOnFirstRunOnly(cs, cfg, g, cid);
  }

  /** A MOVE or ATTACK that returns leaves the list exactly when its tick
      was already out. */
  lemma CountdownLeavesAtZero(cs: CommandState, cfg: Config, g: Geometry, cid: Cid)
    requires Consistent(cs) && cid in cs.heap && cs.heap[cid].key in cs.ledger
    requires cs.heap[cid].job.MoveJob? || cs.heap[cid].job.AttackJob?
    requires Run(cs, cfg, g, cid).Ran?
    ensures cs.heap[cid].key in Run(cs, cfg, g, cid).cs.ledger <==> cs.heap[cid].tick > 0
  {
    RemoveShape(cs.ledger, cs.heap[cid].key);
  }

  /** A COLLECT whose tick is not out only counts down. */
  lemma CollectWaits(cs: CommandState, cfg: Config, g: Geometry, cid: Cid)
    requires cid in cs.heap && cs.heap[cid].key.cid == cid && Runnable(cs.world, cs.heap[cid])
    requires cs.heap[cid].job.CollectJob? && cs.heap[cid].tick > 0
    ensures Run(cs, cfg, g, cid) == Ran(Store(cs, cs.heap[cid].(tick := cs.heap[cid].tick - 1)))
  {
  }

  /** At tick <= 0 a registered COLLECT collects one unit and leaves. */
  lemma CollectCollectsOnce(cs: CommandState, cfg: Config, g: Geometry, cid: Cid)
    requires Consistent(cs) && cid in cs.heap && cs.heap[cid].key in cs.ledger
    requires cs.heap[cid].job.CollectJob? && cs.heap[cid].tick <= 0
    requires Interactions.CollectCheck(cs.world, g, cs.heap[cid].key.entity, cs.heap[cid].target).Ok?
    requires Interactions.CollectCheck(cs.world, g, cs.heap[cid].key.entity, cs.heap[cid].target).value != cs.heap[cid].key.entity
    requires cs.world.objects[cs.heap[cid].key.entity].owner.Some?
    ensures var r := Run(cs, cfg, g, cid); var c := cs.heap[cid];
            var src := Interactions.CollectCheck(cs.world, g, c.key.entity, c.target).value;
            var kind := Interactions.YieldOf(cs.world.objects[src]);
            r.Ran? && c.key !in r.cs.ledger &&
            r.cs.world.objects[c.key.entity].stats.inventory.Get(kind)
              == cs.world.objects[c.key.entity].stats.inventory.Get(kind) + 1
  {
    CollectRunStocks(cs, cfg, g, cid);
  }

  /** A COLLECT runs as `RunCollect`. */
  lemma RunIsCollect(cs: CommandState, cfg: Config, g: Geometry, cid: Cid)
    requires cid in cs.heap && cs.heap[cid].key.cid == cid && Runnable(cs.world, cs.heap[cid])
    requires cs.heap[cid].job.CollectJob?
    ensures Run(cs, cfg, g, cid) == RunCollect(cs, g, cid)
  {
  }

  lemma CollectRunStocks(cs: CommandState, cfg: Config, g: Geometry, cid: Cid)
    requires cid in cs.heap && cs.heap[cid].key.cid == cid && Runnable(cs.world, cs.heap[cid])
    requires cs.heap[cid].key in cs.ledger && DistinctIds(cs.ledger)
    requires cs.heap[cid].job.CollectJob? && cs.heap[cid].tick <= 0
    requires Interactions.CollectCheck(cs.world, g, cs.heap[cid].key.entity, cs.heap[cid].target).Ok?
    requires Interactions.CollectCheck(cs.world, g, cs.heap[cid].key.entity, cs.heap[cid].target).value != cs.heap[cid].key.entity
    requires cs.world.objects[cs.heap[cid].key.entity].owner.Some?
    ensures var r := Run(cs, cfg, g, cid); var c := cs.heap[cid];
            var src := Interactions.CollectCheck(cs.world, g, c.key.entity, c.target).value;
            var kind := Interactions.YieldOf(cs.world.objects[src]);
            r.Ran? && c.key !in r.cs.ledger &&
            r.cs.world.objects[c.key.entity].stats.inventory.Get(kind)
              == cs.world.objects[c.key.entity].stats.inventory.Get(kind) + 1
  {
    RunIsCollect(cs, cfg, g, cid);
    CollectorStocks(cs, g, cid);
  }

  lemma CollectorStocks(cs: CommandState, g: Geometry, cid: Cid)
    requires cid in cs.heap && cs.heap[cid].key.cid == cid && Runnable(cs.world, cs.heap[cid])
    requires cs.heap[cid].key in cs.ledger && DistinctIds(cs.ledger)
    requires cs.heap[cid].job.CollectJob? && cs.heap[cid].tick <= 0
    requires Interactions.CollectCheck(cs.world, g, cs.heap[cid].key.entity, cs.heap[cid].target).Ok?
    requires Interactions.CollectCheck(cs.world, g, cs.heap[cid].key.entity, cs.heap[cid].target).value != cs.heap[cid].key.entity
    requires cs.world.objects[cs.heap[cid].key.entity].owner.Some?
    ensures var r := RunCollect(cs, g, cid); var c := cs.heap[cid];
            var src := Interactions.CollectCheck(cs.world, g, c.key.entity, c.target).value;
            var kind := Interactions.YieldOf(cs.world.objects[src]);
            r.Ran? && c.key !in r.cs.ledger &&
            r.cs.world.objects[c.key.entity].stats.inventory.Get(kind)
              == cs.world.objects[c.key.entity].stats.inventory.Get(kind) + 1
  {
    RemoveShape(cs.ledger, cs.heap[cid].key);
  }

  /** A DROP acts on its first run; it leaves the list itself only when the
      drop succeeds. */
  lemma DropActsImmediately(cs: CommandState, cfg: Config, g: Geometry, cid: Cid)
    requires cid in cs.heap && cs.heap[cid].key.cid == cid && Runnable(cs.world, cs.heap[cid])
    requires cs.heap[cid].job.DropJob?
    ensures var c := cs.heap[cid];
            var d := Interactions.DropResource(cs.world, g, c.player, c.key.entity, c.target);
            (d.Ok? ==> Run(cs, cfg, g, cid) == Ran(Unlist(cs.(world := d.value), c.key))) &&
            (d.Err? ==> Run(cs, cfg, g, cid) == Raised(cs, d.error))
  {
    RunIsDrop(cs, cfg, g, cid);
  }

  /** A DROP runs as `RunDrop`. */
  lemma RunIsDrop(cs: CommandState, cfg: Config, g: Geometry, cid: Cid)
    requires cid in cs.heap && cs.heap[cid].key.cid == cid && Runnable(cs.world, cs.heap[cid])
    requires cs.heap[cid].job.DropJob?
    ensures Run(cs, cfg, g, cid) == RunDrop(cs, g, cid)
  {
  }

  // ---------------------------------------------------------------------
  // Repeated runs

  /** `n` consecutive passes over one command, stopping at the first raise. */
  function RunTimes(cs: CommandState, cfg: Config, g: Geometry, cid: Cid, n: nat): (r: RunOutcome)
    requires cid in cs.heap && cs.heap[cid].key.cid == cid && Runnable(cs.world, cs.heap[cid])
    ensures r.cs.heap.Keys == cs.heap.Keys
    decreases n
  {
    if n == 0 then Ran(cs)
    else
      match Run(cs, cfg, g, cid)
      case Raised(s, e) => Raised(s, e)
      case Ran(s) => RunTimes(s, cfg, g, cid, n - 1)
  }

  /** A started MOVE or ATTACK with tick `t >= 0` stays registered for `t`
      more runs, each lowering the tick by one, and leaves on run `t + 1`. */
  lemma {:induction false} CountdownRuns(cs: CommandState, cfg: Config, g: Geometry, cid: Cid, n: nat)
    requires cid in cs.heap && cs.heap[cid].key.cid == cid && Runnable(cs.world, cs.heap[cid])
    requires cs.heap[cid].job.MoveJob? || cs.heap[cid].job.AttackJob?
    requires !cs.heap[cid].start && cs.heap[cid].key in cs.ledger && DistinctIds(cs.ledger)
    requires 0 <= cs.heap[cid].tick && n <= cs.heap[cid].tick + 1
    ensures RunTimes(cs, cfg, g, cid, n).Ran?
    ensures n <= cs.heap[cid].tick ==>
              cs.heap[cid].key in RunTimes(cs, cfg, g, cid, n).cs.ledger &&
              RunTimes(cs, cfg, g, cid, n).cs.heap[cid].tick == cs.heap[cid].tick - n
    ensures n == cs.heap[cid].tick + 1 ==> cs.heap[cid].key !in RunTimes(cs, cfg, g, cid, n).cs.ledger
    decreases n
  {
    if n > 0 {
      var s := Run(cs, cfg, g, cid).cs;
      if cs.heap[cid].tick <= 0 {
        RemoveShape(cs.ledger, cs.heap[cid].key);
        assert s.ledger == Remove(cs.ledger, cs.heap[cid].key);
        assert RunTimes(cs, cfg, g, cid, n) == Ran(s);
      } else {
        assert s.ledger == cs.ledger && !s.heap[cid].start && s.heap[cid].key == cs.heap[cid].key;
        assert s.heap[cid].tick == cs.heap[cid].tick - 1;
        assert RunTimes(cs, cfg, g, cid, n) == RunTimes(s, cfg, g, cid, n - 1);
        CountdownRuns(s, cfg, g, cid, n - 1);
      }
    }
  }

  /** The first run of a fresh MOVE whose unit has an owner: the unit
      moves, the start flag drops, the tick falls by one, and the list
      loses the command only when the budget was 0. */
  lemma MoveFirstRun(cs: CommandState, cfg: Config, g: Geometry, cid: Cid)
    requires cid in cs.heap && cs.heap[cid].key.cid == cid && Runnable(cs.world, cs.heap[cid])
    requires cs.heap[cid].job.MoveJob? && cs.heap[cid].start
    requires cs.world.objects[cs.heap[cid].key.entity].owner.Some?
    ensures Run(cs, cfg, g, cid).Ran?
    ensures var s := Run(cs, cfg, g, cid).cs; var c := cs.heap[cid];
            cid in s.heap && s.heap[cid].key == c.key && s.heap[cid].job.MoveJob? && !s.heap[cid].start &&
            s.heap[cid].tick == c.tick - 1 && Runnable(s.world, s.heap[cid]) &&
            (c.tick > 0 ==> s.ledger == cs.ledger) &&
            (c.tick <= 0 ==> s.ledger == Remove(cs.ledger, c.key))
  {
  }

  /** Running `n + 1` times is one run followed by `n` more. */
  lemma RunTimesStep(cs: CommandState, cfg: Config, g: Geometry, cid: Cid, n: nat)
    requires cid in cs.heap && cs.heap[cid].key.cid == cid && Runnable(cs.world, cs.heap[cid])
    requires Run(cs, cfg, g, cid).Ran?
    requires var s := Run(cs, cfg, g, cid).cs; Runnable(s.world, s.heap[cid]) && s.heap[cid].key.cid == cid
    ensures RunTimes(cs, cfg, g, cid, n + 1) == RunTimes(Run(cs, cfg, g, cid).cs, cfg, g, cid, n)
  {
  }

  /** A fresh MOVE with budget `b >= 0` whose unit has an owner is still
      registered after `b` runs and gone after run `b + 1`. */
  lemma MoveLeavesOnRunBudgetPlusOne(cs: CommandState, cfg: Config, g: Geometry, cid: Cid)
    requires Consistent(cs) && cid in cs.heap && cs.heap[cid].key in cs.ledger
    requires cs.heap[cid].job.MoveJob? && cs.heap[cid].start && cs.heap[cid].tick >= 0
    requires cs.world.objects[cs.heap[cid].key.entity].owner.Some?
    ensures RunTimes(cs, cfg, g, cid, cs.heap[cid].tick).Ran?
    ensures cs.heap[cid].key in RunTimes(cs, cfg, g, cid, cs.heap[cid].tick).cs.ledger
    ensures RunTimes(cs, cfg, g, cid, cs.heap[cid].tick + 1).Ran?
    ensures cs.heap[cid].key !in RunTimes(cs, cfg, g, cid, cs.heap[cid].tick + 1).cs.ledger
  {
    MoveStaysForBudget(cs, cfg, g, cid);
    MoveLeavesAfterBudget(cs, cfg, g, cid);
  }

  /** The first half: still registered after `b` runs. */
  lemma MoveStaysForBudget(cs: CommandState, cfg: Config, g: Geometry, cid: Cid)
    requires cid in cs.heap && cs.heap[cid].key.cid == cid && Runnable(cs.world, cs.heap[cid])
    requires cs.heap[cid].key in cs.ledger && DistinctIds(cs.ledger)
    requires cs.heap[cid].job.MoveJob? && cs.heap[cid].start && cs.heap[cid].tick >= 0
    requires cs.world.objects[cs.heap[cid].key.entity].owner.Some?
    ensures RunTimes(cs, cfg, g, cid, cs.heap[cid].tick).Ran?
    ensures cs.heap[cid].key in RunTimes(cs, cfg, g, cid, cs.heap[cid].tick).cs.ledger
  {
    if cs.heap[cid].tick == 0 {
      RunTimesZero(cs, cfg, g, cid);
    } else {
      MoveFirstRun(cs, cfg, g, cid);
      MoveStaysWithBudget(cs, cfg, g, cid, Run(cs, cfg, g, cid).cs);
    }
  }

  /** No runs leave the state as it is. */
  lemma RunTimesZero(cs: CommandState, cfg: Config, g: Geometry, cid: Cid)
    requires cid in cs.heap && cs.heap[cid].key.cid == cid && Runnable(cs.world, cs.heap[cid])
    ensures RunTimes(cs, cfg, g, cid, 0) == Ran(cs)
  {
  }

  /** A MOVE with budget `b > 0` whose first run gives `s` is, from `s`,
      a countdown of `b - 1` that is still listed after `b` runs. */
  lemma MoveStaysWithBudget(cs: CommandState, cfg: Config, g: Geometry, cid: Cid, s: CommandState)
    requires cid in cs.heap && cs.heap[cid].key.cid == cid && Runnable(cs.world, cs.heap[cid])
    requires DistinctIds(cs.ledger) && cs.heap[cid].tick > 0 && Run(cs, cfg, g, cid) == Ran(s)
    requires cid in s.heap && s.heap[cid].key == cs.heap[cid].key && s.heap[cid].job.MoveJob? && !s.heap[cid].start
    requires s.heap[cid].tick == cs.heap[cid].tick - 1 && Runnable(s.world, s.heap[cid])
    requires s.ledger == cs.ledger && cs.heap[cid].key in cs.ledger
    ensures RunTimes(cs, cfg, g, cid, cs.heap[cid].tick).Ran?
    ensures cs.heap[cid].key in RunTimes(cs, cfg, g, cid, cs.heap[cid].tick).cs.ledger
  {
    var b := cs.heap[cid].tick;
    RunTimesPeel(cs, cfg, g, cid, s, b);
    CountdownRuns(s, cfg, g, cid, b - 1);
  }


  /** Running `n > 0` times from a state whose next run gives `s` is
      running `n - 1` times from `s`. */
  lemma RunTimesPeel(cs: CommandState, cfg: Config, g: Geometry, cid: Cid, s: CommandState, n: nat)
    requires cid in cs.heap && cs.heap[cid].key.cid == cid && Runnable(cs.world, cs.heap[cid])
    requires n > 0 && Run(cs, cfg, g, cid) == Ran(s)
    requires cid in s.heap && Runnable(s.world, s.heap[cid]) && s.heap[cid].key.cid == cid
    ensures RunTimes(cs, cfg, g, cid, n) == RunTimes(s, cfg, g, cid, n - 1)
  {
  }

  /** The second half: gone after run `b + 1`. */
  lemma MoveLeavesAfterBudget(cs: CommandState, cfg: Config, g: Geometry, cid: Cid)
    requires cid in cs.heap && cs.heap[cid].key.cid == cid && Runnable(cs.world, cs.heap[cid])
    requires cs.heap[cid].key in cs.ledger && DistinctIds(cs.ledger)
    requires cs.heap[cid].job.MoveJob? && cs.heap[cid].start && cs.heap[cid].tick >= 0
    requires cs.world.objects[cs.heap[cid].key.entity].owner.Some?
    ensures RunTimes(cs, cfg, g, cid, cs.heap[cid].tick + 1).Ran?
    ensures cs.heap[cid].key !in RunTimes(cs, cfg, g, cid, cs.heap[cid].tick + 1).cs.ledger
  {
    var b := cs.heap[cid].tick;
    MoveFirstRun(cs, cfg, g, cid);
    var s := Run(cs, cfg, g, cid).cs;
    RunTimesStep(cs, cfg, g, cid, b);
    if b == 0 {
      RemoveShape(cs.ledger, cs.heap[cid].key);
      assert RunTimes(s, cfg, g, cid, 0) == Ran(s);
    } else {
      CountdownRuns(s, cfg, g, cid, b);
    }
  }
}
