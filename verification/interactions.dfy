/** The mutation gateway (model/interactions.py): every operation checks its
    preconditions, mutates the world and appends one outbound message. */
module Interactions {
  import opened Base
  import opened World

  /** `place_object`: anchor the object at `c`, record its coordinate and
      announce it with one PLACE_OBJECT message. */
  function PlaceObject(w: World, id: ObjId, c: Coord): (r: World)
    requires id in w.objects
    ensures ObjectAt(r, c) == Some(id)
    ensures forall d :: d != c ==> ObjectAt(r, d) == ObjectAt(w, d)
    ensures r.objects[id] == w.objects[id].(coord := Some(c))
    ensures r.outbox == w.outbox + [PlaceObjectMsg(id, w.objects[id].name, w.objects[id].size, c)]
    ensures r.players == w.players && r.nextId == w.nextId
    ensures r.objects.Keys == w.objects.Keys
  {
    var o := w.objects[id];
    Emit(w.(cells := w.cells[c := id], objects := w.objects[id := o.(coord := Some(c))]),
         PlaceObjectMsg(id, o.name, o.size, c))
  }

  /** `remove_object`: clear the object's cell, announce the removal with the
      coordinate it had, then detach it and mark it dead. */
  function RemoveObject(w: World, id: ObjId): (r: World)
    requires id in w.objects
    ensures w.objects[id].coord.Some? ==> ObjectAt(r, w.objects[id].coord.value).None?
    ensures forall d :: Some(d) != w.objects[id].coord ==> ObjectAt(r, d) == ObjectAt(w, d)
    ensures id in r.objects && r.objects[id].coord.None? && !r.objects[id].alive
    ensures r.outbox == w.outbox + [RemoveObjectMsg(id, w.objects[id].coord)]
    ensures r.players == w.players && r.nextId == w.nextId
    ensures r.objects.Keys == w.objects.Keys
  {
    var o := w.objects[id];
    var cells := if o.coord.Some? then w.cells - {o.coord.value} else w.cells;
    Emit(w.(cells := cells), RemoveObjectMsg(id, o.coord))
      .(objects := w.objects[id := o.(coord := None, alive := false)])
  }

  /** Placing an object on a free cell and removing it again leaves the grid
      as it was, and the log holds exactly the two announcements. */
  lemma PlaceThenRemove(w: World, id: ObjId, c: Coord)
    requires id in w.objects && c !in w.cells
    ensures RemoveObject(PlaceObject(w, id, c), id).cells == w.cells
    ensures RemoveObject(PlaceObject(w, id, c), id).outbox
            == w.outbox + [PlaceObjectMsg(id, w.objects[id].name, w.objects[id].size, c), RemoveObjectMsg(id, Some(c))]
  {
    var w1 := PlaceObject(w, id, c);
    assert w1.cells == w.cells[c := id];
    assert w1.cells - {c} == w.cells;
  }

  /** `map.move(unit, c)`: the unit leaves its own anchor cell and takes `c`. */
  function MoveCells(cells: map<Coord, ObjId>, id: ObjId, from: Option<Coord>, c: Coord): (r: map<Coord, ObjId>)
    ensures c in r && r[c] == id
    ensures forall d :: d != c && Some(d) != from ==> (d in r <==> d in cells) && (d in r ==> r[d] == cells[d])
    ensures from.Some? && from.value != c && from.value in cells && cells[from.value] == id ==> from.value !in r
  {
    var left := if from.Some? && from.value in cells && cells[from.value] == id then cells - {from.value} else cells;
    left[c := id]
  }

  /** `move_unit`: the map and the unit's coordinate change first; composing
      the MOVE_UNIT message needs the unit's owner, so an ownerless unit is
      moved and then raises. */
  function MoveUnit(w: World, id: ObjId, c: Coord): (r: Effect)
    requires id in w.objects
    ensures ObjectAt(r.world, c) == Some(id)
    ensures r.world.objects[id] == w.objects[id].(coord := Some(c))
    ensures r.raised.None? <==> w.objects[id].owner.Some?
    ensures r.raised.None? ==>
              r.world.outbox == w.outbox + [MoveUnitMsg(w.objects[id].owner.value, id, w.objects[id].name, c, w.objects[id].coord)]
    ensures r.raised.Some? ==> r.raised.value == MissingAttribute && r.world.outbox == w.outbox
    ensures r.world.players == w.players
    ensures r.world.objects.Keys == w.objects.Keys && r.world.nextId == w.nextId
  {
    var o := w.objects[id];
    var moved := w.(cells := MoveCells(w.cells, id, o.coord, c), objects := w.objects[id := o.(coord := Some(c))]);
    match o.owner
    case None => Effect(moved, Some(MissingAttribute))
    case Some(p) => Effect(Emit(moved, MoveUnitMsg(p, id, o.name, c, o.coord)), None)
  }

  /** The checks `attack` makes before touching anything, in source order.
      Asking the target for its owner is the first thing done with it, and
      only entities (units and buildings) have an owner: a resource or a
      footprint placeholder raises there, so the resource test after the
      team test never rejects anything. */
  function AttackCheck(w: World, g: Geometry, aid: ObjId, tc: Coord): (r: Result<ObjId>)
    requires aid in w.objects
    ensures r.Ok? ==> ObjectAt(w, tc) == Some(r.value)
    ensures r.Ok? ==> w.objects[r.value].IsUnit() || w.objects[r.value].IsBuilding()
    ensures r.Ok? ==> w.objects[r.value].owner != w.objects[aid].owner
  {
    var a := w.objects[aid];
    if a.coord.None? || !a.IsUnit() then Err(MissingAttribute)
    else if g.distance(a.coord.value, tc) > a.stats.range then Err(OutOfRange)
    else
      match ObjectAt(w, tc)
      case None => Err(NoTarget)
      case Some(tid) =>
        var t := w.objects[tid];
        if !t.IsUnit() && !t.IsBuilding() then Err(MissingAttribute)
        else if t.owner == a.owner then Err(SameTeam)
        else Ok(tid)
  }

  /** A unit in range of a resource or a placeholder cell cannot harm it:
      the attack raises on the target's missing owner and changes nothing. */
  lemma AttackSparesNonEntities(w: World, g: Geometry, aid: ObjId, tc: Coord)
    requires aid in w.objects && w.objects[aid].IsUnit() && w.objects[aid].coord.Some?
    requires g.distance(w.objects[aid].coord.value, tc) <= w.objects[aid].stats.range
    requires ObjectAt(w, tc).Some?
    requires !w.objects[ObjectAt(w, tc).value].IsUnit() && !w.objects[ObjectAt(w, tc).value].IsBuilding()
    ensures Attack(w, g, aid, tc) == Effect(w, Some(MissingAttribute))
  {
  }

  /** What the owner of a killed entity loses: the entity leaves the
      owner's units or buildings, and a population-increasing building
      takes its capacity off the owner's cap; any other cap is kept. */
  predicate Fallen(w: World, tid: ObjId, r: World)
    requires tid in w.objects
  {
    var t := w.objects[tid];
    t.owner.Some? && PlayerNamed(w, t.owner.value).Some? ==>
      var before := PlayerNamed(w, t.owner.value).value;
      PlayerNamed(r, t.owner.value).Some? &&
      var after := PlayerNamed(r, t.owner.value).value;
      (t.IsUnit() ==> tid !in after.units) &&
      (t.IsBuilding() ==> tid !in after.buildings) &&
      after.maxPopulation == before.maxPopulation - (if t.IsBuilding() && t.stats.popIncrease then t.stats.capacity else 0)
  }

  /** The cleanup of a killed target: off the map, stripped of its owner and
      out of the owner's units or buildings; a population-increasing
      building lowers the owner's cap. An ownerless entity raises midway. */
  function Bury(w: World, tid: ObjId): (r: Effect)
    requires tid in w.objects
    ensures w.objects[tid].coord.Some? ==> ObjectAt(r.world, w.objects[tid].coord.value).None?
    ensures r.world.objects.Keys == w.objects.Keys && SameResources(w, r.world)
    ensures r.world.objects[tid].hp == w.objects[tid].hp
    ensures |r.world.outbox| > |w.outbox| && r.world.outbox[..|w.outbox|] == w.outbox
    ensures r.world.outbox == w.outbox + [RemoveObjectMsg(tid, w.objects[tid].coord)]
    ensures r.world.objects[tid].coord.None? && r.world.objects[tid].owner.None?
    ensures r.raised.Some? <==> (w.objects[tid].IsUnit() || w.objects[tid].IsBuilding()) && w.objects[tid].owner.None?
    ensures r.raised.Some? ==> r.raised.value == MissingAttribute
    ensures Fallen(w, tid, r.world)
  {
    var t := w.objects[tid];
    if t.IsBuilding() && t.stats.popIncrease && t.owner.None? then
      Effect(RemoveObject(w, tid), Some(MissingAttribute))
    else
      var r := Disown(w, tid);
      if (t.IsBuilding() || t.IsUnit()) && t.owner.None? then Effect(r, Some(MissingAttribute))
      else Effect(r, None)
  }

  /** The cleanup after `remove_object`: the owner's cap is lowered for a
      population-increasing building, the target's owner is cleared, and the
      target leaves the owner's buildings or units. */
  function Disown(w: World, tid: ObjId): (r: World)
    requires tid in w.objects
    requires w.objects[tid].IsBuilding() && w.objects[tid].stats.popIncrease ==> w.objects[tid].owner.Some?
    ensures r.cells == RemoveObject(w, tid).cells && r.outbox == RemoveObject(w, tid).outbox
    ensures r.objects.Keys == w.objects.Keys && SameResources(w, r)
    ensures r.objects[tid] == w.objects[tid].(coord := None, alive := false, owner := None)
    ensures Fallen(w, tid, r)
  {
    var t := w.objects[tid];
    var owner := t.owner;
    var w1 := RemoveObject(w, tid);
    var w2 := if t.IsBuilding() && t.stats.popIncrease then AdjustMaxPopulation(w1, owner.value, -t.stats.capacity) else w1;
    var w3 := UpdateObject(w2, tid, w2.objects[tid].(owner := None));
    var w4 := if owner.None? then w3
              else if t.IsBuilding() then DropBuilding(w3, owner.value, tid)
              else if t.IsUnit() then DropUnit(w3, owner.value, tid)
              else w3;
    SameResourcesTrans(w1, w2, w4);
    SameResourcesTrans(w, w1, w4);
    w4
  }

  /** `attack`: a failed check leaves the world untouched; otherwise the
      target loses the attacker's attack points, one ATTACK message is sent
      and a target left without hit points is buried. */
  function Attack(w: World, g: Geometry, aid: ObjId, tc: Coord): (r: Effect)
    requires aid in w.objects
    ensures AttackCheck(w, g, aid, tc).Err? ==> r == Effect(w, Some(AttackCheck(w, g, aid, tc).error))
    ensures AttackCheck(w, g, aid, tc).Ok? ==>
              var tid := AttackCheck(w, g, aid, tc).value;
              tid in r.world.objects &&
              r.world.objects[tid].hp == w.objects[tid].hp - w.objects[aid].stats.attack
    ensures AttackCheck(w, g, aid, tc).Ok? && w.objects[aid].owner.Some? ==>
              var tid := AttackCheck(w, g, aid, tc).value;
              |r.world.outbox| >= |w.outbox| + 1 && r.world.outbox[|w.outbox|] ==
                AttackMsg(w.objects[aid].owner.value, aid, w.objects[aid].name, w.objects[aid].coord.value,
                          tid, w.objects[tid].name, w.objects[tid].coord)
    ensures AttackCheck(w, g, aid, tc).Ok? && w.objects[aid].owner.Some? ==>
              var tid := AttackCheck(w, g, aid, tc).value;
              w.objects[tid].hp - w.objects[aid].stats.attack <= 0 ==>
                (w.objects[tid].coord.Some? ==> ObjectAt(r.world, w.objects[tid].coord.value).None?) &&
                r.world.objects[tid].coord.None? && r.world.objects[tid].owner.None? &&
                (r.raised.None? <==> w.objects[tid].owner.Some?) &&
                Fallen(w, tid, r.world)
    ensures r.world.objects.Keys == w.objects.Keys && SameResources(w, r.world)
  {
    match AttackCheck(w, g, aid, tc)
    case Err(e) => Effect(w, Some(e))
    case Ok(tid) => Strike(w, aid, tid)
  }

  /** What `attack` does once its checks pass: the damage, the ATTACK
      message composed with the attacker's owner, and the cleanup of a
      target left without hit points. */
  function Strike(w: World, aid: ObjId, tid: ObjId): (r: Effect)
    requires aid in w.objects && tid in w.objects
    requires w.objects[aid].coord.Some? && w.objects[aid].IsUnit()
    requires w.objects[tid].IsUnit() || w.objects[tid].IsBuilding()
    ensures tid in r.world.objects && r.world.objects[tid].hp == w.objects[tid].hp - w.objects[aid].stats.attack
    ensures w.objects[aid].owner.Some? ==>
              |r.world.outbox| >= |w.outbox| + 1 && r.world.outbox[|w.outbox|] ==
                AttackMsg(w.objects[aid].owner.value, aid, w.objects[aid].name, w.objects[aid].coord.value,
                          tid, w.objects[tid].name, w.objects[tid].coord)
    ensures w.objects[aid].owner.Some? && w.objects[tid].hp - w.objects[aid].stats.attack <= 0 ==>
              (w.objects[tid].coord.Some? ==> ObjectAt(r.world, w.objects[tid].coord.value).None?) &&
              r.world.objects[tid].coord.None? && r.world.objects[tid].owner.None? &&
              (r.raised.None? <==> w.objects[tid].owner.Some?) &&
              Fallen(w, tid, r.world)
    ensures r.world.objects.Keys == w.objects.Keys && SameResources(w, r.world)
  {
    var a := w.objects[aid];
    var t := w.objects[tid];
    var hit := t.(hp := t.hp - a.stats.attack);
    var w1 := UpdateObject(w, tid, hit);
    if a.owner.None? then Effect(w1, Some(MissingAttribute))
    else
      var w2 := Emit(w1, AttackMsg(a.owner.value, aid, a.name, a.coord.value, tid, t.name, t.coord));
      if hit.Living() then Effect(w2, None)
      else
        var b := Bury(w2, tid);
        assert b.world.outbox[|w.outbox|] == w2.outbox[|w.outbox|];
        FallenAfterHit(w, w2, tid, b.world);
        SameResourcesTrans(w, w2, b.world);
        b
  }

  /** The loss a killed target's owner suffers depends only on the owner,
      the kind of the target and the players, so the hit itself and its
      announcement do not change it. */
  lemma FallenAfterHit(w: World, w2: World, tid: ObjId, r: World)
    requires tid in w.objects && tid in w2.objects && w2.players == w.players
    requires w2.objects[tid] == w.objects[tid].(hp := w2.objects[tid].hp)
    requires Fallen(w2, tid, r)
    ensures Fallen(w, tid, r)
  {
  }

  /** `Resource.collect(n)`: the amount actually taken from `available`. */
  function Take(available: int, n: int): (taken: int)
    ensures 0 <= taken
    ensures n >= 0 ==> taken <= n
    ensures taken <= available || taken == 0
    ensures n >= 0 && available >= n ==> taken == n
  {
    if n <= 0 then 0 else if available >= n then n else if available > 0 then available else 0
  }

  function Stocked(u: GameObject, r: ResourceType): GameObject
    requires u.IsUnit()
  {
    u.(stats := u.stats.(inventory := u.stats.inventory.Set(r, u.stats.inventory.Get(r) + 1)))
  }

  /** The checks `collect_resource` makes, in source order. The model
      rejects a collector that is not a unit here, before any mutation. */
  function CollectCheck(w: World, g: Geometry, vid: ObjId, rc: Coord): Result<ObjId>
    requires vid in w.objects
  {
    var v := w.objects[vid];
    if v.coord.None? then Err(MissingAttribute)
    else if !g.adjacent(v.coord.value, rc) then Err(OutOfRange)
    else
      match ObjectAt(w, rc)
      case None => Err(NoTarget)
      case Some(rid) =>
        if !w.objects[rid].IsFarm() && !w.objects[rid].IsResource() then Err(NotAResource)
        else if !v.IsUnit() then Err(MissingAttribute)
        else Ok(rid)
  }

  /** The resource kind a collector gets from the object: a farm yields food. */
  function YieldOf(o: GameObject): ResourceType {
    if o.IsResource() then o.stats.kind else Food
  }

  /** `collect_resource`: whatever the source gives up, the collector stocks
      exactly one unit of its kind; an exhausted source is removed; a farm
      sends no COLLECT_RESOURCE message. */
  function CollectResource(w: World, g: Geometry, vid: ObjId, rc: Coord, amount: int): (r: Effect)
    requires vid in w.objects
    ensures CollectCheck(w, g, vid, rc).Err? ==> r == Effect(w, Some(CollectCheck(w, g, vid, rc).error))
    ensures CollectCheck(w, g, vid, rc).Ok? ==>
              var rid := CollectCheck(w, g, vid, rc).value;
              var kind := YieldOf(w.objects[rid]);
              vid in r.world.objects && r.world.objects[vid].IsUnit() &&
              (rid != vid ==> r.world.objects[vid].stats.inventory.Get(kind) == w.objects[vid].stats.inventory.Get(kind) + 1)
    ensures CollectCheck(w, g, vid, rc).Ok? ==>
              (r.raised.None? <==> w.objects[vid].owner.Some? || w.objects[CollectCheck(w, g, vid, rc).value].IsFarm())
    ensures CollectCheck(w, g, vid, rc).Ok? && w.objects[CollectCheck(w, g, vid, rc).value].IsFarm() ==>
              forall i :: |w.outbox| <= i < |r.world.outbox| ==> !r.world.outbox[i].CollectResourceMsg?
    ensures r.world.objects.Keys == w.objects.Keys && r.world.players == w.players
  {
    match CollectCheck(w, g, vid, rc)
    case Err(e) => Effect(w, Some(e))
    case Ok(rid) =>
      var v := w.objects[vid];
      var src := w.objects[rid];
      if src.IsFarm() then
        var food := src.stats.farmFood.value;
        var left := food - Take(food, amount);
        var w1 := UpdateObject(w, rid, src.(stats := src.stats.(farmFood := Some(left))));
        var w2 := UpdateObject(w1, vid, Stocked(w1.objects[vid], Food));
        if left > 0 then Effect(w2, None) else Effect(RemoveObject(w2, rid), None)
      else
        var taken := Take(src.hp, amount);
        var w1 := UpdateObject(w, rid, src.(hp := src.hp - taken));
        var w2 := UpdateObject(w1, vid, Stocked(w1.objects[vid], src.stats.kind));
        if v.owner.None? then Effect(w2, Some(MissingAttribute))
        else
          var rest := w2.objects[rid];
          var w3 := Emit(w2, CollectResourceMsg(v.owner.value, vid, v.name, v.coord.value,
                                                rid, rest.name, rest.coord, rest.hp, taken));
          if rest.Living() then Effect(w3, None) else Effect(RemoveObject(w3, rid), None)
  }

  /** The checks `drop_resource` makes, in source order. */
  function DropCheck(w: World, g: Geometry, vid: ObjId, tc: Coord): Result<ObjId>
    requires vid in w.objects
  {
    var v := w.objects[vid];
    if v.coord.None? then Err(MissingAttribute)
    else if !g.adjacent(v.coord.value, tc) then Err(OutOfRange)
    else
      match ObjectAt(w, tc)
      case None => Err(NoTarget)
      case Some(bid) =>
        var b := w.objects[bid];
        if !b.IsBuilding() then Err(NotABuilding)
        else if !b.stats.dropPoint then Err(NotADropPoint)
        else if !v.IsUnit() then Err(MissingAttribute)
        else Ok(bid)
  }

  /** `drop_resource`: every held amount is credited to the player and the
      collector's inventory is emptied; one DROP_RESOURCE message is sent. */
  function DropResource(w: World, g: Geometry, player: PlayerName, vid: ObjId, tc: Coord): (r: Result<World>)
    requires vid in w.objects
    ensures r.Err? <==> DropCheck(w, g, vid, tc).Err?
    ensures r.Err? ==> r.error == DropCheck(w, g, vid, tc).error
    ensures r.Ok? ==> vid in r.value.objects && r.value.objects[vid].IsUnit()
                      && r.value.objects[vid].stats.inventory == NoStock
    ensures r.Ok? && PlayerNamed(w, player).Some? ==>
              PlayerNamed(r.value, player).Some? &&
              PlayerNamed(r.value, player).value.resources
                == Plus(PlayerNamed(w, player).value.resources, w.objects[vid].stats.inventory)
    ensures r.Ok? ==> |r.value.outbox| == |w.outbox| + 1 && r.value.outbox[|w.outbox|].DropResourceMsg?
    ensures r.Ok? ==> r.value.objects.Keys == w.objects.Keys
  {
    match DropCheck(w, g, vid, tc)
    case Err(e) => Err(e)
    case Ok(bid) =>
      var v := w.objects[vid];
      var held := v.stats.inventory;
      var w1 := UpdateObject(w, vid, v.(stats := v.stats.(inventory := NoStock)));
      var w2 := match PlayerNamed(w1, player)
                case None => w1
                case Some(p) => ReplacePlayer(w1, player, p.(resources := Plus(p.resources, held)));
      assert PlayerNamed(w, player).Some? ==> PlayerNamed(w2, player).Some?;
      var b := w.objects[bid];
      Ok(Emit(w2, DropResourceMsg(player, vid, v.name, v.coord.value, bid, b.name, b.coord, held)))
  }

  /** `link_owner`: the entity's owner becomes the player, and the entity
      joins the player's units or buildings by kind. */
  function LinkOwner(w: World, player: PlayerName, id: ObjId): (r: World)
    requires id in w.objects
    ensures id in r.objects && r.objects[id].owner == Some(player)
    ensures r.objects[id] == w.objects[id].(owner := Some(player))
    ensures r.cells == w.cells
    ensures PlayerNamed(w, player).Some? ==> PlayerNamed(r, player).Some?
    ensures PlayerNamed(w, player).Some? && w.objects[id].IsUnit() ==> id in PlayerNamed(r, player).value.units
    ensures PlayerNamed(w, player).Some? && w.objects[id].IsBuilding() ==> id in PlayerNamed(r, player).value.buildings
    ensures PlayerNamed(w, player).Some? ==> PlayerNamed(r, player).value.maxPopulation == PlayerNamed(w, player).value.maxPopulation
    ensures r.outbox == w.outbox + [LinkOwnerMsg(player, id, w.objects[id].name, w.objects[id].coord)]
    ensures r.objects.Keys == w.objects.Keys && SameResources(w, r)
  {
    var o := w.objects[id];
    var w1 := UpdateObject(w, id, o.(owner := Some(player)));
    var w2 := if o.IsBuilding() then AddBuilding(w1, player, id)
              else if o.IsUnit() then AddUnit(w1, player, id)
              else w1;
    Emit(w2, LinkOwnerMsg(player, id, o.name, o.coord))
  }
}
