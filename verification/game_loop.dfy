/** The game controller's loop body (controller/game_controller.py):
    `load_task`, then `update`, then `network_interactions`. */
module GameLoop {
  import opened Base
  import opened World
  import opened Ledger
  import opened Commands
  import opened Tasks
  import opened TaskManager
  import opened Reconcile

  /** The engine between two loop iterations: the command heap and the list
      agree, and every held task is well formed. */
  predicate Live(e: Engine) {
    Consistent(e.cs) && Assigned(e.cs, e.tasks)
  }

  lemma LiveIsOk(e: Engine)
    requires Live(e)
    ensures EngineOk(e)
  {
  }

  // ---------------------------------------------------------------------
  // update

  /** Every entry of the snapshot names a command of the heap. */
  predicate Listed(cs: CommandState, snapshot: seq<Entry>) {
    forall k :: 0 <= k < |snapshot| ==> snapshot[k].cid in cs.heap && cs.heap[snapshot[k].cid].key == snapshot[k]
  }

  /** A run of one command keeps the heap and the list in agreement, and
      so does taking the command off the list afterwards. */
  lemma RunKeepsConsistent(cs: CommandState, cfg: Config, g: Geometry, cid: Cid)
    requires Consistent(cs) && cid in cs.heap
    ensures Consistent(Run(cs, cfg, g, cid).cs)
    ensures Consistent(Unlist(Run(cs, cfg, g, cid).cs, cs.heap[cid].key))
  {
    SettledConsistent(cs, cid, Run(cs, cfg, g, cid));
  }

  /** Any outcome that settles a command of a consistent state keeps the
      heap and the list in agreement, with or without the command's entry. */
  lemma SettledConsistent(cs: CommandState, cid: Cid, r: RunOutcome)
    requires Consistent(cs) && cid in cs.heap && Settles(cs, cid, r)
    requires forall d :: d in cs.heap && Runnable(cs.world, cs.heap[d]) ==> Runnable(r.cs.world, cs.heap[d])
    ensures Consistent(r.cs)
    ensures Consistent(Unlist(r.cs, cs.heap[cid].key))
  {
    var key := cs.heap[cid].key;
    RemoveFirstOccurrence(cs.ledger, key);
    RemovePreservesValid(cs.ledger, key);
    if r.cs.ledger != cs.ledger {
      InRemoved(cs.ledger, key);
    }
    InRemoved(r.cs.ledger, key);
    RemovePreservesValid(r.cs.ledger, key);
  }

  /** Removal only takes entries away. */
  lemma InRemoved(l: seq<Entry>, e: Entry)
    ensures forall k :: 0 <= k < |Remove(l, e)| ==> Remove(l, e)[k] in l
  {
    RemoveFirstOccurrence(l, e);
    if Position(l, e).Some? {
      var i := Position(l, e).value;
      forall k | 0 <= k < |Remove(l, e)| ensures Remove(l, e)[k] in l {
        if k < i { assert Remove(l, e)[k] == l[k]; } else { assert Remove(l, e)[k] == l[k + 1]; }
      }
    }
  }

  /** What a run of commands keeps of an engine: the same commands with
      the same identities, nothing new on the list, and the tasks a subset
      of the old ones, untouched. */
  predicate Ran(e: Engine, r: Engine) {
    r.cs.heap.Keys == e.cs.heap.Keys && r.cs.nextCid == e.cs.nextCid &&
    (forall c :: c in e.cs.heap ==> r.cs.heap[c].key == e.cs.heap[c].key) &&
    (forall k :: 0 <= k < |r.cs.ledger| ==> r.cs.ledger[k] in e.cs.ledger) &&
    e.cs.world.objects.Keys <= r.cs.world.objects.Keys &&
    r.tasks.Keys <= e.tasks.Keys && (forall id :: id in r.tasks ==> r.tasks[id] == e.tasks[id])
  }

  /** One command's turn in `update`. A ValueError or AttributeError takes
      the command off the list and clears its entity's task; any other
      error ends the loop. */
  function RunOne(e: Engine, cfg: Config, g: Geometry, x: Entry): (r: Result<Engine>)
    requires Live(e) && x.cid in e.cs.heap && e.cs.heap[x.cid].key == x
    ensures r.Ok? ==> Live(r.value) && Ran(e, r.value)
    ensures r.Ok? ==> forall c :: c in e.cs.heap && c != x.cid ==> r.value.cs.heap[c] == e.cs.heap[c]
    ensures r.Err? ==> Class(r.error) != ValueErr && Class(r.error) != AttributeErr
  {
    var out := Run(e.cs, cfg, g, x.cid);
    SettledLive(e, x, out);
    match out
    case Ran(s) => Ok(Engine(s, e.tasks))
    case Raised(s, err) =>
      if Class(err) == ValueErr || Class(err) == AttributeErr then Ok(Engine(Unlist(s, x), e.tasks - {x.entity}))
      else Err(err)
  }

  /** The engines a settled turn can leave: the command's new state, or
      that state with the command off the list and its entity's task
      cleared. Both keep the loop invariant and every other command. */
  lemma SettledLive(e: Engine, x: Entry, out: RunOutcome)
    requires Live(e) && x.cid in e.cs.heap && e.cs.heap[x.cid].key == x && Settles(e.cs, x.cid, out)
    requires forall d :: d in e.cs.heap && Runnable(e.cs.world, e.cs.heap[d]) ==> Runnable(out.cs.world, e.cs.heap[d])
    ensures var e1 := Engine(out.cs, e.tasks);
            Live(e1) && Ran(e, e1) && forall c :: c in e.cs.heap && c != x.cid ==> e1.cs.heap[c] == e.cs.heap[c]
    ensures var e2 := Engine(Unlist(out.cs, x), e.tasks - {x.entity});
            Live(e2) && Ran(e, e2) && forall c :: c in e.cs.heap && c != x.cid ==> e2.cs.heap[c] == e.cs.heap[c]
  {
    SettledConsistent(e.cs, x.cid, out);
    SettledRan(e, x, out.cs, e.tasks);
    SettledRan(e, x, Unlist(out.cs, x), e.tasks - {x.entity});
  }

  /** A settled state, with or without the command's entry, and a subset
      of the tasks is a run of the engine that keeps it live. */
  lemma SettledRan(e: Engine, x: Entry, s: CommandState, tasks: map<ObjId, Task>)
    requires Live(e) && x.cid in e.cs.heap && e.cs.heap[x.cid].key == x && Consistent(s)
    requires s.heap.Keys == e.cs.heap.Keys && s.nextCid == e.cs.nextCid && s.heap[x.cid].key == x
    requires forall c :: c in e.cs.heap && c != x.cid ==> s.heap[c] == e.cs.heap[c]
    requires s.ledger == e.cs.ledger || s.ledger == Remove(e.cs.ledger, x) || s.ledger == Remove(Remove(e.cs.ledger, x), x)
    requires e.cs.world.objects.Keys <= s.world.objects.Keys
    requires tasks.Keys <= e.tasks.Keys && forall id :: id in tasks ==> tasks[id] == e.tasks[id]
    ensures Live(Engine(s, tasks)) && Ran(e, Engine(s, tasks))
  {
    InRemoved(e.cs.ledger, x);
    InRemoved(Remove(e.cs.ledger, x), x);
    AssignedAfterRun(e, Engine(s, e.tasks));
  }

  /** The three ways a command's turn ends. */
  lemma RunOneCases(e: Engine, cfg: Config, g: Geometry, x: Entry)
    requires Live(e) && x.cid in e.cs.heap && e.cs.heap[x.cid].key == x
    ensures var out := Run(e.cs, cfg, g, x.cid);
            var r := RunOne(e, cfg, g, x);
            (out.Ran? ==> r == Ok(Engine(out.cs, e.tasks))) &&
            (out.Raised? && (Class(out.error) == ValueErr || Class(out.error) == AttributeErr) ==>
               r == Ok(Engine(Unlist(out.cs, x), e.tasks - {x.entity}))) &&
            (out.Raised? && Class(out.error) != ValueErr && Class(out.error) != AttributeErr ==> r == Err(out.error))
  {
  }

  /** Running commands keeps every snapshot entry pointing at its command. */
  lemma ListedKept(e: Engine, r: Engine, snapshot: seq<Entry>)
    requires Ran(e, r) && Listed(e.cs, snapshot)
    ensures Listed(r.cs, snapshot)
  {
  }

  /** No entry of the snapshot names command `c`. */
  predicate Unlisted(c: Cid, snapshot: seq<Entry>) {
    forall k :: 0 <= k < |snapshot| ==> snapshot[k].cid != c
  }

  /** `update`: run every command of the snapshot in order. */
  function UpdateAll(e: Engine, cfg: Config, g: Geometry, snapshot: seq<Entry>): (r: Result<Engine>)
    requires Live(e) && Listed(e.cs, snapshot)
    ensures r.Ok? ==> Live(r.value) && Ran(e, r.value)
    ensures r.Ok? ==> forall c :: c in e.cs.heap && Unlisted(c, snapshot) ==> r.value.cs.heap[c] == e.cs.heap[c]
    ensures r.Err? ==> Class(r.error) != ValueErr && Class(r.error) != AttributeErr
    decreases |snapshot|
  {
    if |snapshot| == 0 then Ok(e)
    else
      match RunOne(e, cfg, g, snapshot[0])
      case Err(err) => Err(err)
      case Ok(e1) =>
        ListedKept(e, e1, snapshot[1..]);
        var r := UpdateAll(e1, cfg, g, snapshot[1..]);
        if r.Ok? then
          UpdateStep(e, e1, r.value, snapshot);
          r
        else r
  }

  /** One command's turn followed by the rest of the pass leaves every
      command the snapshot does not name untouched. */
  lemma UpdateStep(e: Engine, e1: Engine, r: Engine, snapshot: seq<Entry>)
    requires |snapshot| > 0 && Ran(e, e1) && Ran(e1, r)
    requires forall c :: c in e.cs.heap && c != snapshot[0].cid ==> e1.cs.heap[c] == e.cs.heap[c]
    requires forall c :: c in e1.cs.heap && Unlisted(c, snapshot[1..]) ==> r.cs.heap[c] == e1.cs.heap[c]
    ensures Ran(e, r)
    ensures forall c :: c in e.cs.heap && Unlisted(c, snapshot) ==> r.cs.heap[c] == e.cs.heap[c]
  {
    RanTrans(e, e1, r);
    forall c | c in e.cs.heap && Unlisted(c, snapshot) ensures r.cs.heap[c] == e.cs.heap[c] {
      assert snapshot[0].cid != c && Unlisted(c, snapshot[1..]);
    }
  }

  lemma AssignedAfterRun(e: Engine, r: Engine)
    requires Assigned(e.cs, e.tasks) && r.tasks == e.tasks
    requires r.cs.heap.Keys == e.cs.heap.Keys && e.cs.world.objects.Keys <= r.cs.world.objects.Keys
    ensures Assigned(r.cs, r.tasks)
  {
    forall id | id in r.tasks ensures TaskOk(r.cs, r.tasks[id]) {
      assert TaskOk(e.cs, e.tasks[id]);
    }
  }

  lemma RanTrans(a: Engine, b: Engine, c: Engine)
    requires Ran(a, b) && Ran(b, c)
    ensures Ran(a, c)
  {
  }

  /** `update` over the list as it stands when the pass begins. */
  function Update(e: Engine, cfg: Config, g: Geometry): (r: Result<Engine>)
    requires Live(e)
    ensures r.Ok? ==> Live(r.value) && Ran(e, r.value)
    ensures r.Err? ==> Class(r.error) != ValueErr && Class(r.error) != AttributeErr
  {
    UpdateAll(e, cfg, g, e.cs.ledger)
  }

  // ---------------------------------------------------------------------
  // load_task

  /** `load_task`: each player's task pass, in player order. */
  function LoadFrom(e: Engine, cfg: Config, g: Geometry, ps: seq<Player>): (r: Result<Engine>)
    requires Live(e)
    ensures r.Ok? ==> Live(r.value) && Extends(e.cs, r.value.cs) && r.value.tasks.Keys <= e.tasks.Keys
    ensures r.Err? ==> Class(r.error) != ValueErr && Class(r.error) != IndexErr
    decreases |ps|
  {
    if |ps| == 0 then
      assert e.cs.ledger[..|e.cs.ledger|] == e.cs.ledger;
      Ok(e)
    else
      match ExecuteTasks(e, cfg, g, ps[0])
      case Err(err) => Err(err)
      case Ok(e1) =>
        var r := LoadFrom(e1, cfg, g, ps[1..]);
        if r.Ok? then ExtendsTrans(e.cs, e1.cs, r.value.cs); r else r
  }

  function LoadTask(e: Engine, cfg: Config, g: Geometry): (r: Result<Engine>)
    requires Live(e)
    ensures r.Ok? ==> Live(r.value) && Extends(e.cs, r.value.cs) && r.value.tasks.Keys <= e.tasks.Keys
    ensures r.Ok? ==> r.value.cs.world == e.cs.world
  {
    LoadFrom(e, cfg, g, e.cs.world.players)
  }

  // ---------------------------------------------------------------------
  // game_loop

  /** Received messages only add objects, so every command and task stays
      anchored in the world they change. */
  lemma WorldGrows(e: Engine, w: World)
    requires Live(e) && e.cs.world.objects.Keys <= w.objects.Keys
    ensures Live(Engine(e.cs.(world := w), e.tasks))
  {
    var e1 := Engine(e.cs.(world := w), e.tasks);
    forall id | id in e1.tasks ensures TaskOk(e1.cs, e1.tasks[id]) {
      assert TaskOk(e.cs, e.tasks[id]);
    }
  }

  /** One pass of the loop body: the players' tasks, then the commands,
      then the messages received since the last pass. The whole body sits
      in one `try` that turns any exception into a RuntimeError, so every
      error here ends the loop. */
  function Tick(e: Engine, cfg: Config, g: Geometry, cat: Catalog, inbound: seq<Json>): (r: Result<Engine>)
    requires Live(e)
    ensures r.Ok? ==> Live(r.value)
    ensures r.Ok? ==> e.cs.heap.Keys <= r.value.cs.heap.Keys && r.value.tasks.Keys <= e.tasks.Keys
    ensures r.Ok? ==> e.cs.world.objects.Keys <= r.value.cs.world.objects.Keys
  {
    match LoadTask(e, cfg, g)
    case Err(err) => Err(err)
    case Ok(e1) =>
      match Update(e1, cfg, g)
      case Err(err) => Err(err)
      case Ok(e2) =>
        assert e.cs.heap.Keys <= e2.cs.heap.Keys by {
          assert forall c :: c in e.cs.heap ==> c in e1.cs.heap;
        }
        match Receive(e2.cs.world, cat, inbound)
        case Err(err) => Err(err)
        case Ok(w) => Ok(Received(e2, w))
  }

  /** The engine after the received messages have changed its world. */
  function Received(e: Engine, w: World): (r: Engine)
    requires Live(e) && Grows(e.cs.world, w)
    ensures Live(r) && r.cs.heap == e.cs.heap && r.tasks == e.tasks && r.cs.world == w
  {
    WorldGrows(e, w);
    Engine(e.cs.(world := w), e.tasks)
  }

  // ---------------------------------------------------------------------
  // Properties

  /** `update` runs exactly the commands listed when it starts: a command
      registered by no entry of that list is left as it was. */
  lemma UpdateRunsTheSnapshot(e: Engine, cfg: Config, g: Geometry, c: Cid)
    requires Live(e) && c in e.cs.heap
    requires Unlisted(c, e.cs.ledger)
    ensures Update(e, cfg, g).Ok? ==> Update(e, cfg, g).value.cs.heap[c] == e.cs.heap[c]
  {
  }

  /** A command that raises a ValueError or an AttributeError leaves the
      list and its entity loses its task, and the pass goes on with the
      rest of the snapshot. */
  lemma FailedCommandDropped(e: Engine, cfg: Config, g: Geometry, snapshot: seq<Entry>)
    requires Live(e) && Listed(e.cs, snapshot) && |snapshot| > 0
    requires var out := Run(e.cs, cfg, g, snapshot[0].cid);
             out.Raised? && (Class(out.error) == ValueErr || Class(out.error) == AttributeErr)
    ensures RunOne(e, cfg, g, snapshot[0]).Ok?
    ensures var e1 := RunOne(e, cfg, g, snapshot[0]).value;
            Listed(e1.cs, snapshot[1..]) && UpdateAll(e, cfg, g, snapshot) == UpdateAll(e1, cfg, g, snapshot[1..]) &&
            snapshot[0] !in e1.cs.ledger && snapshot[0].entity !in e1.tasks
  {
    var x := snapshot[0];
    var out := Run(e.cs, cfg, g, x.cid);
    RunOneCases(e, cfg, g, x);
    var e1 := RunOne(e, cfg, g, x).value;
    ListedKept(e, e1, snapshot[1..]);
    if x in out.cs.ledger {
      RunKeepsConsistent(e.cs, cfg, g, x.cid);
      RemoveShape(out.cs.ledger, x);
    } else {
      RemoveFirstOccurrence(out.cs.ledger, x);
    }
  }

  /** `update` takes commands off the list but never puts one on, and the
      list stays valid. */
  lemma UpdateOnlyShrinks(e: Engine, cfg: Config, g: Geometry)
    requires Live(e)
    ensures Update(e, cfg, g).Ok? ==>
              var l := Update(e, cfg, g).value.cs.ledger;
              Valid(l) && forall k :: 0 <= k < |l| ==> l[k] in e.cs.ledger
  {
  }

  /** With nothing received, a pass is the task pass followed by the
      command pass, and the world is whatever the commands made of it. */
  lemma QuietTick(e: Engine, cfg: Config, g: Geometry, cat: Catalog)
    requires Live(e)
    ensures Tick(e, cfg, g, cat, []) ==
              match LoadTask(e, cfg, g)
              case Err(err) => Err(err)
              case Ok(e1) => Update(e1, cfg, g)
  {
    match LoadTask(e, cfg, g)
    case Err(_) =>
    case Ok(e1) =>
      match Update(e1, cfg, g)
      case Err(_) =>
      case Ok(e2) => assert e2.cs.(world := e2.cs.world) == e2.cs;
  }

  /** A received message the receiver cannot handle ends the loop. */
  lemma BadMessageIsFatal(e: Engine, cfg: Config, g: Geometry, cat: Catalog, m: Json)
    requires Live(e)
    ensures LoadTask(e, cfg, g).Ok? && Update(LoadTask(e, cfg, g).value, cfg, g).Ok? &&
            Handle(Update(LoadTask(e, cfg, g).value, cfg, g).value.cs.world, cat, m).Err? ==>
              Tick(e, cfg, g, cat, [m]).Err?
  {
  }
}
