/** `TaskController.execute_tasks` (controller/task_manager.py): one pass
    over a player's units and then its buildings, stepping every entity
    that has a task. */
module TaskManager {
  import opened Base
  import opened World
  import opened Ledger
  import opened Commands
  import opened Tasks

  /** The command state together with the task each entity holds. */
  datatype Engine = Engine(cs: CommandState, tasks: map<ObjId, Task>)

  /** Every held task belongs to the entity holding it and is well formed. */
  predicate Assigned(cs: CommandState, tasks: map<ObjId, Task>) {
    forall id :: id in tasks ==> tasks[id].entity == id && TaskOk(cs, tasks[id])
  }

  predicate EngineOk(e: Engine) {
    Fresh(e.cs) && Assigned(e.cs, e.tasks)
  }

  /** What any number of task steps keep: the world, every issued command,
      and the list up to new entries at its end. */
  predicate Extends(cs: CommandState, s: CommandState) {
    s.world == cs.world && Fresh(s) && cs.nextCid <= s.nextCid && (Consistent(cs) ==> Consistent(s)) &&
    (forall c :: c in cs.heap ==> c in s.heap && s.heap[c] == cs.heap[c]) &&
    |cs.ledger| <= |s.ledger| && s.ledger[..|cs.ledger|] == cs.ledger
  }

  lemma ExtendsTrans(a: CommandState, b: CommandState, c: CommandState)
    requires Extends(a, b) && Extends(b, c)
    ensures Extends(a, c)
  {
    assert c.ledger[..|a.ledger|] == c.ledger[..|b.ledger|][..|a.ledger|];
  }

  /** A task step's own guarantee, read as many-step. */
  lemma RegistersExtends(cs: CommandState, s: CommandState)
    requires Registers(cs, s)
    ensures Extends(cs, s)
  {
  }

  /** Tasks that were well formed before a step still are: nothing is
      taken away from the heap or the world. */
  lemma AssignedAfterStep(cs: CommandState, s: CommandState, tasks: map<ObjId, Task>)
    requires Extends(cs, s) && Assigned(cs, tasks)
    ensures Assigned(s, tasks)
  {
    forall id | id in tasks ensures TaskOk(s, tasks[id]) {
      assert TaskOk(cs, tasks[id]);
    }
  }

  /** One entity's turn: step its task if it has one; a ValueError or an
      IndexError drops that task; any other error ends the pass. */
  function StepEntity(e: Engine, cfg: Config, g: Geometry, player: PlayerName, id: ObjId): (r: Result<Engine>)
    requires EngineOk(e)
    ensures r.Ok? ==> EngineOk(r.value) && Extends(e.cs, r.value.cs) && r.value.tasks.Keys <= e.tasks.Keys
    ensures r.Ok? ==> forall j :: j in e.tasks && j != id ==> j in r.value.tasks && r.value.tasks[j] == e.tasks[j]
    ensures r.Ok? && id in r.value.tasks ==> SameTask(e.tasks[id], r.value.tasks[id])
    ensures id !in e.tasks ==> r == Ok(e)
    ensures id in e.tasks ==>
              var x := Execute(e.cs, cfg, g, player, e.tasks[id]);
              (x.Ok? ==> r.Ok? && r.value.cs == x.value.cs && (id in r.value.tasks <==> !x.value.cleared)) &&
              (x.Err? && (Class(x.error) == ValueErr || Class(x.error) == IndexErr) ==>
                 r == Ok(e.(tasks := e.tasks - {id}))) &&
              (x.Err? && Class(x.error) != ValueErr && Class(x.error) != IndexErr ==> r == Err(x.error))
  {
    if id !in e.tasks then Ok(e)
    else
      match Execute(e.cs, cfg, g, player, e.tasks[id])
      case Err(err) =>
        if Class(err) == ValueErr || Class(err) == IndexErr then Ok(e.(tasks := e.tasks - {id})) else Err(err)
      case Ok(Step(s, t, cleared)) =>
        RegistersExtends(e.cs, s);
        AssignedAfterStep(e.cs, s, e.tasks);
        Ok(Engine(s, if cleared then e.tasks - {id} else e.tasks[id := t]))
  }

  /** Step the listed entities in order. */
  function RunAll(e: Engine, cfg: Config, g: Geometry, player: PlayerName, ids: seq<ObjId>): (r: Result<Engine>)
    requires EngineOk(e)
    ensures r.Ok? ==> EngineOk(r.value) && Extends(e.cs, r.value.cs) && r.value.tasks.Keys <= e.tasks.Keys
    ensures r.Ok? ==> forall j :: j in e.tasks && j !in ids ==> j in r.value.tasks && r.value.tasks[j] == e.tasks[j]
    ensures r.Err? ==> Class(r.error) != ValueErr && Class(r.error) != IndexErr
    decreases |ids|
  {
    if |ids| == 0 then
      assert e.cs.ledger[..|e.cs.ledger|] == e.cs.ledger;
      Ok(e)
    else
      match StepEntity(e, cfg, g, player, ids[0])
      case Err(err) => Err(err)
      case Ok(e1) =>
        var r := RunAll(e1, cfg, g, player, ids[1..]);
        if r.Ok? then ExtendsTrans(e.cs, e1.cs, r.value.cs); r else r
  }

  /** `execute_tasks`: the player's units first, then its buildings. */
  function ExecuteTasks(e: Engine, cfg: Config, g: Geometry, p: Player): (r: Result<Engine>)
    requires EngineOk(e)
    ensures r.Ok? ==> EngineOk(r.value) && Extends(e.cs, r.value.cs) && r.value.tasks.Keys <= e.tasks.Keys
    ensures r.Ok? ==> forall j :: j in e.tasks && j !in p.units && j !in p.buildings ==>
                        j in r.value.tasks && r.value.tasks[j] == e.tasks[j]
    ensures r.Err? ==> Class(r.error) != ValueErr && Class(r.error) != IndexErr
  {
    RunAll(e, cfg, g, p.name, p.units + p.buildings)
  }

  // ---------------------------------------------------------------------
  // Properties

  /** A pass over `a + b` is a pass over `a` followed by a pass over `b`:
      every unit has had its turn before the first building does. */
  lemma {:induction false} RunAllSplits(e: Engine, cfg: Config, g: Geometry, player: PlayerName, a: seq<ObjId>, b: seq<ObjId>)
    requires EngineOk(e)
    ensures RunAll(e, cfg, g, player, a + b) ==
              match RunAll(e, cfg, g, player, a)
              case Err(err) => Err(err)
              case Ok(e1) => RunAll(e1, cfg, g, player, b)
    decreases |a|
  {
    if |a| == 0 {
      assert a + b == b;
    } else {
      assert (a + b)[0] == a[0] && (a + b)[1..] == a[1..] + b;
      match StepEntity(e, cfg, g, player, a[0])
      case Err(_) =>
      case Ok(e1) => RunAllSplits(e1, cfg, g, player, a[1..], b);
    }
  }

  /** Entities without a task are skipped: a pass over them changes
      nothing. */
  lemma {:induction false} IdleEntitiesSkipped(e: Engine, cfg: Config, g: Geometry, player: PlayerName, ids: seq<ObjId>)
    requires EngineOk(e) && forall k :: 0 <= k < |ids| ==> ids[k] !in e.tasks
    ensures RunAll(e, cfg, g, player, ids) == Ok(e)
    decreases |ids|
  {
    if |ids| > 0 {
      assert StepEntity(e, cfg, g, player, ids[0]) == Ok(e);
      IdleEntitiesSkipped(e, cfg, g, player, ids[1..]);
    }
  }

  /** One failing task does not stop the pass: when an entity's step raises
      a ValueError or an IndexError, the rest of the pass runs exactly as if
      that entity had never held a task. */
  lemma FailureIsolated(e: Engine, cfg: Config, g: Geometry, player: PlayerName, ids: seq<ObjId>)
    requires EngineOk(e) && |ids| > 0 && ids[0] in e.tasks
    requires var x := Execute(e.cs, cfg, g, player, e.tasks[ids[0]]);
             x.Err? && (Class(x.error) == ValueErr || Class(x.error) == IndexErr)
    ensures RunAll(e, cfg, g, player, ids) == RunAll(e.(tasks := e.tasks - {ids[0]}), cfg, g, player, ids[1..])
  {
  }

  /** A pass never runs a command, never changes the world, and keeps
      every entry of the shared list where it was. */
  lemma PassOnlyRegisters(e: Engine, cfg: Config, g: Geometry, p: Player)
    requires EngineOk(e) && ExecuteTasks(e, cfg, g, p).Ok?
    ensures var s := ExecuteTasks(e, cfg, g, p).value.cs;
            s.world == e.cs.world &&
            (forall k :: 0 <= k < |e.cs.ledger| ==> k < |s.ledger| && s.ledger[k] == e.cs.ledger[k]) &&
            (forall c :: c in e.cs.heap ==> c in s.heap && s.heap[c].tick == e.cs.heap[c].tick)
  {
    var s := ExecuteTasks(e, cfg, g, p).value.cs;
    assert forall k :: 0 <= k < |e.cs.ledger| ==> s.ledger[k] == s.ledger[..|e.cs.ledger|][k];
  }
}
