/** The task layer (the files under model/tasks): waiting-flag state
    machines that issue commands through the player's command controller,
    poll the issued command's tick, and clear the entity's task when done.
    A step never changes the world; it only registers commands. */
module Tasks {
  import opened Base
  import opened World
  import opened Ledger
  import opened Commands

  /** What every task has (`Task`): the entity it drives, the target cell,
      the waiting flag and the last command it issued; and what its class
      adds. */
  datatype Task = Task(entity: ObjId, target: Coord, waiting: bool, cmd: Option<Cid>, kind: Kind)

  datatype Kind =
    | Moving(path: seq<Coord>, step: nat)
    | Building(building: ObjId, approach: Task)
    | Collecting(drop: Coord, go: Task, back: Option<Task>, resource: ResourceType)
    | Killing(approach: Task)
    | Spawning

  /** One `execute_task` call that returned: the new command state, the
      task's new state, and whether it set its entity's task to none. */
  datatype Step = Step(cs: CommandState, task: Task, cleared: bool)

  // ---------------------------------------------------------------------
  // Construction

  /** `MoveTask.__init__`: the path avoids the rectangle when both corners
      are given, otherwise it is diagonal or not as asked. The entity must
      stand somewhere for the path finder to start from. */
  function NewMover(w: World, g: Geometry, entity: ObjId, target: Coord,
                    avoid: Option<(Coord, Coord)>, diagonal: bool): (r: Result<Task>)
    requires entity in w.objects
    ensures r.Ok? <==> w.objects[entity].coord.Some?
    ensures r.Ok? ==> r.value.entity == entity && r.value.target == target && !r.value.waiting
                      && r.value.cmd.None? && r.value.kind.Moving? && r.value.kind.step == 0
    ensures r.Ok? && avoid.Some? ==>
              r.value.kind.path == g.pathAvoid(w.cells, w.objects[entity].coord.value, target, avoid.value.0, avoid.value.1)
    ensures r.Ok? && avoid.None? && diagonal ==>
              r.value.kind.path == g.path(w.cells, w.objects[entity].coord.value, target)
    ensures r.Ok? && avoid.None? && !diagonal ==>
              r.value.kind.path == g.pathNonDiagonal(w.cells, w.objects[entity].coord.value, target)
  {
    match w.objects[entity].coord
    case None => Err(MissingAttribute)
    case Some(from) =>
      var path := match avoid
                  case Some((a, b)) => g.pathAvoid(w.cells, from, target, a, b)
                  case None => if diagonal then g.path(w.cells, from, target) else g.pathNonDiagonal(w.cells, from, target);
      Ok(Task(entity, target, false, None, Moving(path, 0)))
  }

  /** `BuildTask.__init__`: the approach avoids the square the building will
      cover, from the target to target + (size - 1). */
  function NewBuildTask(w: World, g: Geometry, villager: ObjId, target: Coord, building: ObjId): (r: Result<Task>)
    requires villager in w.objects && building in w.objects
    ensures r.Ok? <==> w.objects[villager].coord.Some?
    ensures r.Ok? ==> r.value.entity == villager && r.value.target == target && !r.value.waiting && r.value.cmd.None?
                      && r.value.kind.Building? && r.value.kind.building == building
    ensures r.Ok? ==>
              r.value.kind.approach.kind.Moving? &&
              r.value.kind.approach.kind.path ==
              g.pathAvoid(w.cells, w.objects[villager].coord.value, target, target, Shift(target, w.objects[building].size - 1))
  {
    var size := w.objects[building].size;
    match NewMover(w, g, villager, target, Some((target, Shift(target, size - 1))), true)
    case Err(e) => Err(e)
    case Ok(m) => Ok(Task(villager, target, false, None, Building(building, m)))
  }

  /** The resource a collector gathers from the object at the target: a
      resource's own kind, or a farm's food. An empty cell, or an object
      with no food to give, raises. */
  function TargetResource(w: World, target: Coord): (r: Result<ResourceType>)
    ensures r.Ok? <==> ObjectAt(w, target).Some? &&
                        (w.objects[ObjectAt(w, target).value].IsResource() || w.objects[ObjectAt(w, target).value].IsFarm())
    ensures r.Ok? && w.objects[ObjectAt(w, target).value].IsResource() ==>
              r.value == w.objects[ObjectAt(w, target).value].stats.kind
    ensures r.Ok? && !w.objects[ObjectAt(w, target).value].IsResource() ==> r.value == Food
  {
    match ObjectAt(w, target)
    case None => Err(MissingAttribute)
    case Some(id) =>
      var o := w.objects[id];
      if o.IsResource() then Ok(o.stats.kind)
      else if o.IsFarm() then Ok(Food)
      else Err(MissingAttribute)
  }

  /** `CollectAndDropTask.__init__`: the way back is planned only when
      first needed. */
  function NewCollectTask(w: World, g: Geometry, villager: ObjId, target: Coord, drop: Coord): (r: Result<Task>)
    requires villager in w.objects
    ensures r.Ok? <==> w.objects[villager].coord.Some? && TargetResource(w, target).Ok?
    ensures r.Ok? ==> r.value.entity == villager && r.value.target == target && !r.value.waiting && r.value.cmd.None?
                      && r.value.kind.Collecting? && r.value.kind.drop == drop && r.value.kind.back.None?
                      && r.value.kind.resource == TargetResource(w, target).value
  {
    match NewMover(w, g, villager, target, None, true)
    case Err(e) => Err(e)
    case Ok(m) =>
      match TargetResource(w, target)
      case Err(e) => Err(e)
      case Ok(k) => Ok(Task(villager, target, false, None, Collecting(drop, m, None, k)))
  }

  function NewKillTask(w: World, g: Geometry, attacker: ObjId, target: Coord): (r: Result<Task>)
    requires attacker in w.objects
    ensures r.Ok? <==> w.objects[attacker].coord.Some?
    ensures r.Ok? ==> r.value.entity == attacker && r.value.target == target && !r.value.waiting && r.value.cmd.None?
                      && r.value.kind.Killing? && r.value.kind.approach.kind.Moving?
                      && r.value.kind.approach.kind.path == g.path(w.cells, w.objects[attacker].coord.value, target)
  {
    match NewMover(w, g, attacker, target, None, true)
    case Err(e) => Err(e)
    case Ok(m) => Ok(Task(attacker, target, false, None, Killing(m)))
  }

  /** `SpawnTask.__init__`: the spawn point is the first cell the
      nearest-empty-zone query returns around the building; an empty
      answer is an IndexError. */
  function NewSpawnTask(w: World, g: Geometry, building: ObjId): (r: Result<Task>)
    requires building in w.objects
    ensures r.Ok? <==> w.objects[building].coord.Some? && |g.nearestEmpty(w.cells, w.objects[building].coord.value, 1)| > 0
    ensures r.Ok? ==> r.value.entity == building && !r.value.waiting && r.value.cmd.None? && r.value.kind.Spawning?
                      && r.value.target == g.nearestEmpty(w.cells, w.objects[building].coord.value, 1)[0]
  {
    match w.objects[building].coord
    case None => Err(MissingAttribute)
    case Some(at) =>
      var zones := g.nearestEmpty(w.cells, at, 1);
      if |zones| == 0 then Err(PathExhausted) else Ok(Task(building, zones[0], false, None, Spawning))
  }

  // ---------------------------------------------------------------------
  // Well-formedness

  /** The entity exists and the command the task holds is in the heap. */
  predicate Anchored(cs: CommandState, t: Task) {
    t.entity in cs.world.objects && (t.cmd.Some? ==> t.cmd.value in cs.heap)
  }

  /** A move task of the same entity, usable as an inner task. */
  predicate MoverOf(cs: CommandState, m: Task, entity: ObjId) {
    m.kind.Moving? && m.entity == entity && Anchored(cs, m)
  }

  predicate TaskOk(cs: CommandState, t: Task) {
    Anchored(cs, t) &&
    match t.kind
    case Moving(_, _) => true
    case Building(_, m) => MoverOf(cs, m, t.entity)
    case Collecting(_, m, b, _) => MoverOf(cs, m, t.entity) && (b.Some? ==> MoverOf(cs, b.value, t.entity))
    case Killing(m) => MoverOf(cs, m, t.entity)
    case Spawning => true
  }

  /** Command ids still to be handed out are not in use. */
  predicate Fresh(cs: CommandState) {
    forall c :: c in cs.heap ==> c < cs.nextCid
  }

  /** A step only ever adds commands: the world is untouched, the commands
      already issued are untouched, and the list gains at most one entry at
      its end. */
  predicate Registers(cs: CommandState, s: CommandState) {
    s.world == cs.world && Fresh(s) && cs.nextCid <= s.nextCid && (Consistent(cs) ==> Consistent(s)) &&
    (forall c :: c in cs.heap ==> c in s.heap && s.heap[c] == cs.heap[c]) &&
    (s.ledger == cs.ledger || (|s.ledger| == |cs.ledger| + 1 && s.ledger[..|cs.ledger|] == cs.ledger))
  }

  /** The entry a step added, if any. */
  function Added(cs: CommandState, s: CommandState): Option<Entry> {
    if |s.ledger| == |cs.ledger| + 1 then Some(s.ledger[|cs.ledger|]) else None
  }

  /** A step keeps what a task is: its class, entity, target and the parts
      fixed at construction. */
  predicate SameTask(t: Task, u: Task) {
    u.entity == t.entity && u.target == t.target &&
    match t.kind
    case Moving(p, _) => u.kind.Moving? && u.kind.path == p
    case Building(b, _) => u.kind.Building? && u.kind.building == b
    case Collecting(d, _, _, k) => u.kind.Collecting? && u.kind.drop == d && u.kind.resource == k
    case Killing(_) => u.kind.Killing?
    case Spawning => u.kind.Spawning?
  }

  /** The issued command is over (`not command` or `command.get_tick() <=
      limit`). */
  predicate Done(cs: CommandState, cmd: Option<Cid>, limit: int) {
    cmd.None? || (cmd.value in cs.heap && cs.heap[cmd.value].tick <= limit)
  }

  // ---------------------------------------------------------------------
  // Steps

  /** Issuing a command through the command controller, seen from a task. */
  function IssueFor(cs: CommandState, cfg: Config, player: PlayerName, entity: ObjId, p: Process,
                    target: Coord, building: Option<ObjId>): (r: Result<(CommandState, Cid)>)
    requires entity in cs.world.objects && Fresh(cs)
    ensures r.Ok? ==> Registers(cs, r.value.0) && r.value.1 == cs.nextCid && r.value.1 in r.value.0.heap
    ensures r.Ok? ==> Added(cs, r.value.0) == Some(Entry(cs.nextCid, entity, p))
    ensures r.Ok? ==> r.value.0.heap[r.value.1].target == target
    ensures r.Ok? <==> Issue(cs, cfg, player, entity, p, target, building).Ok?
    ensures r.Err? ==> r.error == Issue(cs, cfg, player, entity, p, target, building).error
  {
    var r := Issue(cs, cfg, player, entity, p, target, building);
    if r.Ok? then
      assert r.value.0.ledger[..|cs.ledger|] == cs.ledger;
      if Consistent(cs) then IssuePreservesConsistent(cs, cfg, player, entity, p, target, building); r
      else r
    else r
  }

  /** `MoveTask.execute_task`. Running off the end of the path raises an
      IndexError that the task does not catch; a ValueError from issuing
      the MOVE (a registration conflict) is caught and clears the task. */
  function MoveStep(cs: CommandState, cfg: Config, player: PlayerName, m: Task): (r: Result<Step>)
    requires MoverOf(cs, m, m.entity) && Fresh(cs)
    ensures r.Ok? ==> Registers(cs, r.value.cs) && MoverOf(r.value.cs, r.value.task, m.entity) && SameTask(m, r.value.task)
    ensures r.Ok? ==> r.value.task.kind.step == m.kind.step || r.value.task.kind.step == m.kind.step + 1
    ensures !m.waiting && m.kind.step >= |m.kind.path| ==> r == Err(PathExhausted)
    ensures r.Err? ==> r.error == PathExhausted || Class(r.error) != ValueErr
    ensures m.waiting && m.cmd.Some? ==> r.Ok? && r.value.cs == cs && !r.value.cleared
    ensures r.Ok? && Added(cs, r.value.cs).Some? ==>
              !m.waiting && m.kind.step < |m.kind.path| &&
              Added(cs, r.value.cs).value == Entry(cs.nextCid, m.entity, Move) &&
              r.value.task.cmd == Some(cs.nextCid) && r.value.cs.heap[cs.nextCid].target == m.kind.path[m.kind.step]
    ensures r.Ok? && r.value.cleared ==> !r.value.task.waiting && r.value.cs == cs
    ensures !m.waiting && m.kind.step < |m.kind.path| ==>
              var i := Issue(cs, cfg, player, m.entity, Move, m.kind.path[m.kind.step], None);
              (i.Ok? ==> r.Ok? && Added(cs, r.value.cs).Some? && !r.value.cleared) &&
              (i.Err? && Class(i.error) == ValueErr ==> r == Ok(Step(cs, m.(waiting := false), true))) &&
              (i.Err? && Class(i.error) != ValueErr ==> r == Err(i.error))
    ensures r.Ok? && !r.value.cleared ==>
              r.value.task.cmd.Some? && r.value.task.cmd.value in r.value.cs.heap &&
              (r.value.task.kind.step == m.kind.step + 1 <==> r.value.cs.heap[r.value.task.cmd.value].tick <= 0) &&
              (r.value.task.waiting <==> r.value.task.kind.step == m.kind.step)
  {
    if !m.waiting then
      if m.kind.step >= |m.kind.path| then Err(PathExhausted)
      else
        match IssueFor(cs, cfg, player, m.entity, Move, m.kind.path[m.kind.step], None)
        case Err(e) => if Class(e) == ValueErr then Ok(Step(cs, m.(waiting := false), true)) else Err(e)
        case Ok((s, cid)) => MovePoll(s, m.(waiting := true, cmd := Some(cid)))
    else MovePoll(cs, m)
  }

  /** The second half of a move step: advance once the MOVE is over. */
  function MovePoll(cs: CommandState, m: Task): (r: Result<Step>)
    requires MoverOf(cs, m, m.entity)
    ensures r.Ok? <==> m.cmd.Some?
    ensures r.Err? ==> r.error == MissingAttribute
    ensures r.Ok? ==> r.value.cs == cs && !r.value.cleared
    ensures r.Ok? && cs.heap[m.cmd.value].tick <= 0 ==>
              r.value.task == m.(waiting := false, kind := Moving(m.kind.path, m.kind.step + 1))
    ensures r.Ok? && cs.heap[m.cmd.value].tick > 0 ==> r.value.task == m.(waiting := true)
  {
    match m.cmd
    case None => Err(MissingAttribute)
    case Some(cid) =>
      if cs.heap[cid].tick <= 0 then Ok(Step(cs, m.(waiting := false, kind := Moving(m.kind.path, m.kind.step + 1)), false))
      else Ok(Step(cs, m.(waiting := true), false))
  }

  /** Finish the task once its command is over. */
  function Poll(cs: CommandState, t: Task, limit: int): (r: Step)
    ensures r.cs == cs && (r.cleared <==> Done(cs, t.cmd, limit))
    ensures r.task == t.(waiting := !r.cleared)
  {
    if Done(cs, t.cmd, limit) then Step(cs, t.(waiting := false), true) else Step(cs, t.(waiting := true), false)
  }

  /** Issue the task's one command when idle, then finish once it is over. */
  function IssueThenPoll(cs: CommandState, cfg: Config, player: PlayerName, t: Task, p: Process,
                         building: Option<ObjId>, limit: int): (r: Result<Step>)
    requires TaskOk(cs, t) && Fresh(cs)
    ensures r.Ok? ==> Registers(cs, r.value.cs) && TaskOk(r.value.cs, r.value.task) && SameTask(t, r.value.task)
    ensures r.Ok? ==> r.value.task.kind == t.kind
    ensures r.Ok? ==> (r.value.cleared <==> Done(r.value.cs, r.value.task.cmd, limit))
    ensures r.Ok? ==> r.value.task.waiting == !r.value.cleared
    ensures t.waiting ==> r.Ok? && r.value.cs == cs && r.value.task.cmd == t.cmd
    ensures r.Ok? && Added(cs, r.value.cs).Some? ==>
              !t.waiting && Added(cs, r.value.cs).value == Entry(cs.nextCid, t.entity, p) &&
              r.value.task.cmd == Some(cs.nextCid) && r.value.cs.heap[cs.nextCid].target == t.target
    ensures !t.waiting ==> (r.Ok? <==> Issue(cs, cfg, player, t.entity, p, t.target, building).Ok?)
    ensures !t.waiting && r.Ok? ==> Added(cs, r.value.cs).Some?
    ensures r.Err? ==> r.error == Issue(cs, cfg, player, t.entity, p, t.target, building).error
  {
    if t.waiting then Ok(Poll(cs, t, limit))
    else
      match IssueFor(cs, cfg, player, t.entity, p, t.target, building)
      case Err(e) => Err(e)
      case Ok((s, cid)) => Ok(Poll(s, t.(cmd := Some(cid)), limit))
  }

  /** Run an inner move task and put it back: `which` 0 is the approach of a
      build or kill task, 1 the way there and 2 the way back of a collect
      task. */
  function Inner(cs: CommandState, cfg: Config, player: PlayerName, t: Task, m: Task, which: nat): (r: Result<Step>)
    requires TaskOk(cs, t) && MoverOf(cs, m, t.entity) && Fresh(cs)
    requires which == 0 ==> t.kind.Building? || t.kind.Killing?
    requires which > 0 ==> t.kind.Collecting? && which <= 2
    ensures r.Ok? ==> Registers(cs, r.value.cs) && TaskOk(r.value.cs, r.value.task) && SameTask(t, r.value.task)
    ensures r.Ok? ==> r.value.task.waiting == t.waiting && r.value.task.cmd == t.cmd
    ensures r.Ok? && Added(cs, r.value.cs).Some? ==> Added(cs, r.value.cs).value.process == Move
    ensures r.Ok? && r.value.cleared ==> r.value.cs == cs
    ensures r.Err? ==> r.error == PathExhausted || Class(r.error) != ValueErr
    ensures r.Ok? && which == 2 ==> r.value.task.kind.back.Some? && r.value.task.kind.back.value.kind.path == m.kind.path
    ensures r.Ok? && which == 1 ==> r.value.task.kind.back == t.kind.back
  {
    match MoveStep(cs, cfg, player, m)
    case Err(e) => Err(e)
    case Ok(Step(s, m1, cleared)) =>
      var kind :=
        if t.kind.Building? then Building(t.kind.building, m1)
        else if t.kind.Killing? then Killing(m1)
        else if which == 1 then Collecting(t.kind.drop, m1, t.kind.back, t.kind.resource)
        else Collecting(t.kind.drop, t.kind.go, Some(m1), t.kind.resource);
      Ok(Step(s, t.(kind := kind), cleared))
  }

  /** `BuildTask.execute_task`: walk until adjacent, then issue BUILD once. */
  function BuildStep(cs: CommandState, cfg: Config, g: Geometry, player: PlayerName, t: Task): (r: Result<Step>)
    requires t.kind.Building? && TaskOk(cs, t) && Fresh(cs)
    ensures r.Ok? ==> Registers(cs, r.value.cs) && TaskOk(r.value.cs, r.value.task) && SameTask(t, r.value.task)
    ensures cs.world.objects[t.entity].coord.None? ==> r == Err(MissingAttribute)
    ensures r.Ok? && Added(cs, r.value.cs).Some? && Added(cs, r.value.cs).value.process == Build ==>
              !t.waiting && g.adjacent(cs.world.objects[t.entity].coord.value, t.target) &&
              r.value.task.cmd == Some(cs.nextCid) &&
              r.value.cs.heap[cs.nextCid].job == BuildJob(t.kind.building, None)
    ensures r.Ok? && !g.adjacent(cs.world.objects[t.entity].coord.value, t.target) ==>
              r.value.task.waiting == t.waiting && r.value.task.cmd == t.cmd &&
              (Added(cs, r.value.cs).Some? ==> Added(cs, r.value.cs).value.process == Move)
    ensures r.Ok? && g.adjacent(cs.world.objects[t.entity].coord.value, t.target) ==>
              (r.value.cleared <==> Done(r.value.cs, r.value.task.cmd, 0)) &&
              (Added(cs, r.value.cs).Some? <==> !t.waiting)
    ensures r.Ok? && t.waiting && !r.value.cleared ==> r.value.task.waiting
    ensures r.Ok? && Added(cs, r.value.cs).Some? && Added(cs, r.value.cs).value.process == Build ==>
              r.value.task.waiting || r.value.cleared
  {
    match cs.world.objects[t.entity].coord
    case None => Err(MissingAttribute)
    case Some(here) =>
      if !g.adjacent(here, t.target) then Inner(cs, cfg, player, t, t.kind.approach, 0)
      else IssueThenPoll(cs, cfg, player, t, Build, Some(t.kind.building), 0)
  }

  /** What the collector holds of the task's resource and how much it can
      carry; only units have an inventory. */
  function Held(w: World, v: ObjId, k: ResourceType): (r: Result<(int, int)>)
    requires v in w.objects
    ensures r.Ok? <==> w.objects[v].IsUnit()
    ensures r.Ok? ==> r.value == (w.objects[v].stats.inventory.Get(k), w.objects[v].stats.inventorySize)
  {
    var o := w.objects[v];
    if o.IsUnit() then Ok((o.stats.inventory.Get(k), o.stats.inventorySize)) else Err(MissingAttribute)
  }

  /** The collect phase: the villager can still carry more. */
  predicate InCollectPhase(w: World, t: Task)
    requires t.kind.Collecting? && t.entity in w.objects && w.objects[t.entity].IsUnit()
  {
    var (have, size) := Held(w, t.entity, t.kind.resource).value;
    have < size
  }

  /** `CollectAndDropTask.execute_task`: the phase is decided afresh on
      every call from what the villager holds. */
  function CollectStep(cs: CommandState, cfg: Config, g: Geometry, player: PlayerName, t: Task): (r: Result<Step>)
    requires t.kind.Collecting? && TaskOk(cs, t) && Fresh(cs)
    ensures r.Ok? ==> Registers(cs, r.value.cs) && TaskOk(r.value.cs, r.value.task) && SameTask(t, r.value.task)
    ensures r.Ok? ==> cs.world.objects[t.entity].IsUnit() && cs.world.objects[t.entity].coord.Some?
    ensures r.Ok? && Added(cs, r.value.cs).Some? && Added(cs, r.value.cs).value.process == Collect ==>
              InCollectPhase(cs.world, t) && !t.waiting && g.adjacent(cs.world.objects[t.entity].coord.value, t.target)
    ensures r.Ok? && Added(cs, r.value.cs).Some? && Added(cs, r.value.cs).value.process == Drop ==>
              !InCollectPhase(cs.world, t) && r.value.cleared &&
              g.adjacent(cs.world.objects[t.entity].coord.value, t.kind.drop) &&
              r.value.task.cmd == Some(cs.nextCid) && cs.nextCid in r.value.cs.heap &&
              r.value.cs.heap[cs.nextCid].target == t.kind.drop
    ensures r.Ok? && Added(cs, r.value.cs).Some? ==> Added(cs, r.value.cs).value.process in {Collect, Drop, Move}
    ensures r.Ok? && t.kind.back.Some? ==>
              r.value.task.kind.back.Some? && r.value.task.kind.back.value.kind.path == t.kind.back.value.kind.path
    ensures r.Ok? && t.waiting && !r.value.cleared ==> r.value.task.waiting
    ensures r.Ok? && Added(cs, r.value.cs).Some? && Added(cs, r.value.cs).value.process == Collect ==>
              r.value.task.waiting || r.value.cleared
  {
    match Held(cs.world, t.entity, t.kind.resource)
    case Err(e) => Err(e)
    case Ok((have, size)) =>
      match cs.world.objects[t.entity].coord
      case None => Err(MissingAttribute)
      case Some(here) =>
        if have < size then
          if !g.adjacent(here, t.target) then Inner(cs, cfg, player, t, t.kind.go, 1)
          else IssueThenPoll(cs, cfg, player, t, Collect, None, 0)
        else if !g.adjacent(here, t.kind.drop) then
          var back := if t.kind.back.Some? then t.kind.back.value
                      else Task(t.entity, t.kind.drop, false, None, Moving(g.path(cs.world.cells, here, t.kind.drop), 0));
          Inner(cs, cfg, player, t, back, 2)
        else
          match IssueFor(cs, cfg, player, t.entity, Drop, t.kind.drop, None)
          case Err(e) => Err(e)
          case Ok((s, cid)) => Ok(Step(s, t.(cmd := Some(cid)), true))
  }

  /** `KillTask.execute_task`: being in range uses the attacker's range;
      adjacency only decides how to approach. An adjacent attacker that is
      out of range (a diagonal neighbour for a melee unit) replans a
      straight path when its move is idle. */
  function KillStep(cs: CommandState, cfg: Config, g: Geometry, player: PlayerName, t: Task): (r: Result<Step>)
    requires t.kind.Killing? && TaskOk(cs, t) && Fresh(cs)
    ensures r.Ok? ==> Registers(cs, r.value.cs) && TaskOk(r.value.cs, r.value.task) && SameTask(t, r.value.task)
    ensures r.Ok? ==> cs.world.objects[t.entity].coord.Some? && cs.world.objects[t.entity].IsUnit()
    ensures r.Ok? && Added(cs, r.value.cs).Some? && Added(cs, r.value.cs).value.process == Attack ==>
              var a := cs.world.objects[t.entity];
              g.inRange(a.coord.value, t.target, a.stats.range) && !t.waiting && ObjectAt(cs.world, t.target).Some?
    ensures r.Ok? ==>
              var a := cs.world.objects[t.entity];
              (g.inRange(a.coord.value, t.target, a.stats.range) && !t.waiting && ObjectAt(cs.world, t.target).None?
               ==> r.value.cleared && r.value.cs == cs)
    ensures r.Ok? && Added(cs, r.value.cs).Some? ==> Added(cs, r.value.cs).value.process in {Attack, Move}
    ensures r.Ok? && !g.inRange(cs.world.objects[t.entity].coord.value, t.target, cs.world.objects[t.entity].stats.range) ==>
              r.value.task.waiting == t.waiting && r.value.task.cmd == t.cmd &&
              (Added(cs, r.value.cs).Some? ==> Added(cs, r.value.cs).value.process == Move)
    ensures r.Ok? && t.waiting && !r.value.cleared ==> r.value.task.waiting
    ensures r.Ok? && Added(cs, r.value.cs).Some? && Added(cs, r.value.cs).value.process == Attack ==>
              r.value.task.waiting || r.value.cleared
  {
    var a := cs.world.objects[t.entity];
    if a.coord.None? || !a.IsUnit() then Err(MissingAttribute)
    else
      var here := a.coord.value;
      if !g.inRange(here, t.target, a.stats.range) then
        if g.adjacent(here, t.target) && !t.kind.approach.waiting then
          var straight := Task(t.entity, t.target, false, None, Moving(g.pathNonDiagonal(cs.world.cells, here, t.target), 0));
          Inner(cs, cfg, player, t, straight, 0)
        else if !g.adjacent(here, t.target) then Inner(cs, cfg, player, t, t.kind.approach, 0)
        else Ok(Step(cs, t, false))
      else if !t.waiting && ObjectAt(cs.world, t.target).None? then
        // the cell is empty: the task is dropped and stays idle
        Ok(Step(cs, t, true))
      else IssueThenPoll(cs, cfg, player, t, Attack, None, 0)
  }

  /** `SpawnTask.execute_task`: the task lets go of the SPAWN once no more
      than 20 * coefficient ticks remain; the command finishes on its own. */
  function SpawnStep(cs: CommandState, cfg: Config, player: PlayerName, t: Task): (r: Result<Step>)
    requires t.kind.Spawning? && TaskOk(cs, t) && Fresh(cs)
    ensures r.Ok? ==> Registers(cs, r.value.cs) && TaskOk(r.value.cs, r.value.task) && SameTask(t, r.value.task)
    ensures r.Ok? ==> (r.value.cleared <==> Done(r.value.cs, r.value.task.cmd, 20 * cfg.coeff))
    ensures r.Ok? && Added(cs, r.value.cs).Some? ==> Added(cs, r.value.cs).value == Entry(cs.nextCid, t.entity, Spawn)
    ensures r.Ok? && Added(cs, r.value.cs).Some? ==> !t.waiting && (r.value.task.waiting || r.value.cleared)
    ensures r.Ok? && t.waiting ==> r.value.cs == cs && !(Added(cs, r.value.cs).Some?)
    ensures r.Ok? ==> r.value.task.waiting == !r.value.cleared
  {
    IssueThenPoll(cs, cfg, player, t, Spawn, None, 20 * cfg.coeff)
  }

  /** The one command kind a task of this class issues for itself. */
  function Own(k: Kind): Process
    requires !k.Moving?
  {
    match k
    case Building(_, _) => Build
    case Collecting(_, _, _, _) => Collect
    case Killing(_) => Attack
    case Spawning => Spawn
  }

  /** The step registered a command of kind `p`. */
  predicate Issues(cs: CommandState, r: Step, p: Process) {
    Added(cs, r.cs).Some? && Added(cs, r.cs).value.process == p
  }

  /** `execute_task`, dispatched on the task's class. */
  function Execute(cs: CommandState, cfg: Config, g: Geometry, player: PlayerName, t: Task): (r: Result<Step>)
    requires TaskOk(cs, t) && Fresh(cs)
    ensures r.Ok? ==> Registers(cs, r.value.cs) && TaskOk(r.value.cs, r.value.task) && SameTask(t, r.value.task)
    ensures r.Ok? && !t.kind.Moving? && Issues(cs, r.value, Own(t.kind)) ==>
              !t.waiting && (r.value.task.waiting || r.value.cleared)
    ensures r.Ok? && !t.kind.Moving? && t.waiting && !r.value.cleared ==> r.value.task.waiting
  {
    match t.kind
    case Moving(_, _) => MoveStep(cs, cfg, player, t)
    case Building(_, _) => BuildStep(cs, cfg, g, player, t)
    case Collecting(_, _, _, _) => CollectStep(cs, cfg, g, player, t)
    case Killing(_) => KillStep(cs, cfg, g, player, t)
    case Spawning => SpawnStep(cs, cfg, player, t)
  }

  // ---------------------------------------------------------------------
  // Properties

  /** The steps one task instance takes over its life: it is stepped again
      only while it has not cleared itself, and between two steps anything
      may happen to the command state (`pre[i]` is what step `i` sees). */
  predicate Lifetime(cfg: Config, g: Geometry, player: PlayerName, pre: seq<CommandState>, t: Task, rs: seq<Step>)
    decreases |rs|
  {
    |pre| == |rs| &&
    (|rs| > 0 ==>
       TaskOk(pre[0], t) && Fresh(pre[0]) && Execute(pre[0], cfg, g, player, t) == Ok(rs[0]) &&
       (|rs| > 1 ==> !rs[0].cleared && Lifetime(cfg, g, player, pre[1..], rs[0].task, rs[1..])))
  }

  /** How many of the steps registered a command of kind `p`. */
  function IssueCount(pre: seq<CommandState>, rs: seq<Step>, p: Process): nat
    requires |pre| == |rs|
  {
    if |rs| == 0 then 0
    else (if Issues(pre[0], rs[0], p) then 1 else 0) + IssueCount(pre[1..], rs[1..], p)
  }

  /** A waiting task never issues its own command again. */
  lemma {:induction false} WaitingIssuesNothing(cfg: Config, g: Geometry, player: PlayerName,
                                                pre: seq<CommandState>, t: Task, rs: seq<Step>)
    requires !t.kind.Moving? && t.waiting && Lifetime(cfg, g, player, pre, t, rs)
    ensures IssueCount(pre, rs, Own(t.kind)) == 0
    decreases |rs|
  {
    if |rs| > 0 {
      assert !Issues(pre[0], rs[0], Own(t.kind));
      if |rs| > 1 {
        WaitingIssuesNothing(cfg, g, player, pre[1..], rs[0].task, rs[1..]);
      }
    }
  }

  /** One build, collect-and-drop, kill or spawn task issues its own
      command (BUILD, COLLECT, ATTACK, SPAWN) at most once in its life: it
      issues only when idle, and after issuing it is waiting until it
      clears itself. */
  lemma {:induction false} AtMostOneOwnCommand(cfg: Config, g: Geometry, player: PlayerName,
                                               pre: seq<CommandState>, t: Task, rs: seq<Step>)
    requires !t.kind.Moving? && Lifetime(cfg, g, player, pre, t, rs)
    ensures IssueCount(pre, rs, Own(t.kind)) <= 1
    decreases |rs|
  {
    if |rs| > 1 {
      var u := rs[0].task;
      LifetimeHead(cfg, g, player, pre, t, rs);
      if Issues(pre[0], rs[0], Own(t.kind)) {
        WaitingIssuesNothing(cfg, g, player, pre[1..], u, rs[1..]);
      } else {
        AtMostOneOwnCommand(cfg, g, player, pre[1..], u, rs[1..]);
      }
    }
  }

  /** After a first step that does not clear the task, the rest of the
      life belongs to a task of the same kind, waiting if the step issued
      its own command. */
  lemma LifetimeHead(cfg: Config, g: Geometry, player: PlayerName, pre: seq<CommandState>, t: Task, rs: seq<Step>)
    requires !t.kind.Moving? && |rs| > 1 && Lifetime(cfg, g, player, pre, t, rs)
    ensures var u := rs[0].task;
            !u.kind.Moving? && Own(u.kind) == Own(t.kind) && Lifetime(cfg, g, player, pre[1..], u, rs[1..]) &&
            (Issues(pre[0], rs[0], Own(t.kind)) ==> u.waiting)
  {
  }

  /** A move task whose MOVE is still counting down issues nothing and
      stays on the same cell of its path. */
  lemma MoveWaitsForItsCommand(cs: CommandState, cfg: Config, player: PlayerName, m: Task)
    requires MoverOf(cs, m, m.entity) && Fresh(cs) && m.waiting && m.cmd.Some? && cs.heap[m.cmd.value].tick > 0
    ensures MoveStep(cs, cfg, player, m) == Ok(Step(cs, m, false))
  {
  }

  /** The step index grows by one exactly when the MOVE it waited for has
      run out, and the task is then idle again. */
  lemma MoveAdvancesWhenDone(cs: CommandState, cfg: Config, player: PlayerName, m: Task)
    requires MoverOf(cs, m, m.entity) && Fresh(cs) && m.waiting && m.cmd.Some? && cs.heap[m.cmd.value].tick <= 0
    ensures MoveStep(cs, cfg, player, m) == Ok(Step(cs, m.(waiting := false, kind := Moving(m.kind.path, m.kind.step + 1)), false))
  {
  }

  /** An idle move task at the end of its path raises the IndexError the
      task manager turns into clearing the task. */
  lemma MovePathExhausted(cs: CommandState, cfg: Config, player: PlayerName, m: Task)
    requires MoverOf(cs, m, m.entity) && Fresh(cs) && !m.waiting && m.kind.step == |m.kind.path|
    ensures MoveStep(cs, cfg, player, m) == Err(PathExhausted)
    ensures Class(PathExhausted) == IndexErr
  {
  }

  /** The spawn task lets go of a SPAWN that is still pending: with ticks
      left in (0, 20 * coefficient], the task clears while the command
      stays registered and untouched, to finish on its own. */
  lemma SpawnTaskLetsGoEarly(cs: CommandState, cfg: Config, player: PlayerName, t: Task)
    requires t.kind.Spawning? && TaskOk(cs, t) && Fresh(cs) && t.waiting && t.cmd.Some?
    requires cs.heap[t.cmd.value].key in cs.ledger
    ensures var r := SpawnStep(cs, cfg, player, t);
            r.Ok? && r.value.cs == cs && r.value.task.cmd == t.cmd &&
            (r.value.cleared <==> cs.heap[t.cmd.value].tick <= 20 * cfg.coeff) &&
            cs.heap[t.cmd.value].key in r.value.cs.ledger
  {
  }

  /** A task never takes back what it registered: every entry of the list
      and every issued command survives its step. */
  lemma StepKeepsCommands(cs: CommandState, cfg: Config, g: Geometry, player: PlayerName, t: Task)
    requires TaskOk(cs, t) && Fresh(cs) && Execute(cs, cfg, g, player, t).Ok?
    ensures var s := Execute(cs, cfg, g, player, t).value.cs;
            s.world == cs.world &&
            (forall k :: 0 <= k < |cs.ledger| ==> s.ledger[k] == cs.ledger[k]) &&
            (forall c :: c in cs.heap ==> c in s.heap && s.heap[c] == cs.heap[c])
  {
    var s := Execute(cs, cfg, g, player, t).value.cs;
    if s.ledger != cs.ledger {
      assert forall k :: 0 <= k < |cs.ledger| ==> s.ledger[k] == s.ledger[..|cs.ledger|][k];
    }
  }
}
