/** The command list shared by every player (model/commands/command.py):
    registration under the per-process exclusivity rule, and removal. */
module Ledger {
  import opened Base

  /** What the list needs to know of a command: its identity, the entity it
      drives and its process. */
  datatype Entry = Entry(cid: Cid, entity: ObjId, process: Process)

  /** A command of these kinds blocks every later command on its entity. */
  predicate Exclusive(p: Process) {
    p == Collect || p == Build
  }

  /** A command of these kinds blocks another of the same kind. */
  predicate Cooling(p: Process) {
    p == Attack || p == Move
  }

  /** An already registered command that forbids registering `e`. */
  predicate Conflicts(existing: Entry, e: Entry) {
    existing.entity == e.entity && existing.process != Spawn &&
    (Exclusive(existing.process) || (Cooling(existing.process) && existing.process == e.process))
  }

  /** The error a conflicting entry raises: the busy check comes first. */
  function ConflictError(existing: Entry): Error {
    if Exclusive(existing.process) then Busy else CoolingDown
  }

  /** Index of the first entry that conflicts with `e`. */
  function FirstConflict(l: seq<Entry>, e: Entry): (r: Option<nat>)
    ensures r.Some? ==> r.value < |l| && Conflicts(l[r.value], e)
    ensures r.Some? ==> forall k :: 0 <= k < r.value ==> !Conflicts(l[k], e)
    ensures r.None? ==> forall k :: 0 <= k < |l| ==> !Conflicts(l[k], e)
  {
    if |l| == 0 then None
    else if Conflicts(l[0], e) then Some(0)
    else
      match FirstConflict(l[1..], e)
      case None => None
      case Some(i) => Some(i + 1)
  }

  /** `push_command_to_list`: scan in order, raise at the first conflicting
      entry, otherwise append. */
  function Register(l: seq<Entry>, e: Entry): (r: Result<seq<Entry>>)
    ensures r.Ok? <==> forall k :: 0 <= k < |l| ==> !Conflicts(l[k], e)
    ensures r.Ok? ==> r.value == l + [e]
    ensures r.Err? ==> exists k :: 0 <= k < |l| && Conflicts(l[k], e) && r.error == ConflictError(l[k])
                                   && forall j :: 0 <= j < k ==> !Conflicts(l[j], e)
  {
    match FirstConflict(l, e)
    case None => Ok(l + [e])
    case Some(k) => Err(ConflictError(l[k]))
  }

  /** Index of the first occurrence of `e`. */
  function Position(l: seq<Entry>, e: Entry): (r: Option<nat>)
    ensures r.Some? ==> r.value < |l| && l[r.value] == e && e !in l[..r.value]
    ensures r.None? ==> e !in l
  {
    if |l| == 0 then None
    else if l[0] == e then Some(0)
    else
      match Position(l[1..], e)
      case None => None
      case Some(i) => assert l[1..][..i] == l[1..i + 1]; Some(i + 1)
  }

  /** `remove_command_from_list`: `list.remove` guarded by membership. */
  function Remove(l: seq<Entry>, e: Entry): (r: seq<Entry>)
    ensures |r| <= |l|
  {
    if |l| == 0 then []
    else if l[0] == e then l[1..]
    else [l[0]] + Remove(l[1..], e)
  }

  /** Removal cuts out exactly the first occurrence and is a no-op when the
      entry is absent. */
  lemma {:induction false} RemoveFirstOccurrence(l: seq<Entry>, e: Entry)
    ensures Position(l, e).None? ==> Remove(l, e) == l
    ensures Position(l, e).Some? ==>
              var i := Position(l, e).value; Remove(l, e) == l[..i] + l[i + 1..]
  {
    if |l| > 0 && l[0] != e {
      RemoveFirstOccurrence(l[1..], e);
      match Position(l[1..], e)
      case None =>
        assert l == [l[0]] + l[1..];
      case Some(i) =>
        assert l[..i + 1] == [l[0]] + l[1..][..i];
        assert l[i + 2..] == l[1..][i + 1..];
    }
  }

  // ---------------------------------------------------------------------
  // List invariants

  /** Each command appears once. */
  predicate DistinctIds(l: seq<Entry>) {
    forall i, j :: 0 <= i < j < |l| ==> l[i].cid != l[j].cid
  }

  /** Per entity, at most one command each of MOVE, ATTACK, COLLECT, BUILD. */
  predicate OnePerProcess(l: seq<Entry>) {
    forall i, j :: 0 <= i < j < |l| && l[i].entity == l[j].entity && l[i].process == l[j].process
      ==> l[i].process == Spawn || l[i].process == Drop
  }

  /** Nothing on an entity is registered after its COLLECT or BUILD. */
  predicate ExclusiveLast(l: seq<Entry>) {
    forall i, j :: 0 <= i < j < |l| && l[i].entity == l[j].entity ==> !Exclusive(l[i].process)
  }

  predicate Valid(l: seq<Entry>) {
    DistinctIds(l) && OnePerProcess(l) && ExclusiveLast(l)
  }

  /** A successful registration keeps the list valid, given a fresh id. */
  lemma RegisterPreservesValid(l: seq<Entry>, e: Entry)
    requires Valid(l)
    requires forall k :: 0 <= k < |l| ==> l[k].cid != e.cid
    requires Register(l, e).Ok?
    ensures Valid(Register(l, e).value)
  {
    var r := l + [e];
    forall i, j | 0 <= i < j < |r| && r[i].entity == r[j].entity
      ensures !Exclusive(r[i].process)
    {
      if j == |l| {
        assert !Conflicts(l[i], e);
      }
    }
    forall i, j | 0 <= i < j < |r| && r[i].entity == r[j].entity && r[i].process == r[j].process
      ensures r[i].process == Spawn || r[i].process == Drop
    {
      if j == |l| {
        assert !Conflicts(l[i], e);
      }
    }
  }

  /** Cutting one element out of a valid list keeps it valid. */
  lemma DeleteAtPreservesValid(l: seq<Entry>, i: nat)
    requires Valid(l) && i < |l|
    ensures Valid(l[..i] + l[i + 1..])
  {
    var r := l[..i] + l[i + 1..];
    forall a, b | 0 <= a < b < |r|
      ensures r[a].cid != r[b].cid
      ensures r[a].entity == r[b].entity ==> !Exclusive(r[a].process)
      ensures r[a].entity == r[b].entity && r[a].process == r[b].process ==> r[a].process == Spawn || r[a].process == Drop
    {
      var a' := if a < i then a else a + 1;
      var b' := if b < i then b else b + 1;
      assert r[a] == l[a'] && r[b] == l[b'];
    }
  }

  /** Removing an entry keeps the list valid. */
  lemma RemovePreservesValid(l: seq<Entry>, e: Entry)
    requires Valid(l)
    ensures Valid(Remove(l, e))
  {
    RemoveFirstOccurrence(l, e);
    if Position(l, e).Some? {
      DeleteAtPreservesValid(l, Position(l, e).value);
    }
  }

  /** A list with no conflicting entry takes the new command at its end,
      and every earlier entry stays where it was. */
  lemma RegisterAppends(l: seq<Entry>, e: Entry)
    requires forall k :: 0 <= k < |l| ==> !Conflicts(l[k], e)
    ensures Register(l, e).Ok?
    ensures |Register(l, e).value| == |l| + 1 && Register(l, e).value[|l|] == e
    ensures forall k :: 0 <= k < |l| ==> Register(l, e).value[k] == l[k]
  {
  }

  /** A COLLECT or BUILD on the entity blocks every process, SPAWN included. */
  lemma BusyBlocksEverything(l: seq<Entry>, k: nat, e: Entry)
    requires k < |l| && l[k].entity == e.entity && Exclusive(l[k].process)
    ensures Register(l, e).Err?
  {
    assert Conflicts(l[k], e);
  }

  /** A registered MOVE (resp. ATTACK) blocks another MOVE (resp. ATTACK). */
  lemma SameProcessCoolsDown(l: seq<Entry>, k: nat, e: Entry)
    requires k < |l| && l[k].entity == e.entity && Cooling(l[k].process) && l[k].process == e.process
    ensures Register(l, e).Err?
  {
    assert Conflicts(l[k], e);
  }

  /** Only COLLECT, BUILD and same-process MOVE/ATTACK entries of the same
      entity block: registration fails exactly when one of them is present. */
  lemma RegisterFailsIff(l: seq<Entry>, e: Entry)
    ensures Register(l, e).Err? <==>
              exists k :: 0 <= k < |l| && l[k].entity == e.entity &&
                (Exclusive(l[k].process) || (Cooling(l[k].process) && l[k].process == e.process))
  {
    if Register(l, e).Err? {
      var k :| 0 <= k < |l| && Conflicts(l[k], e);
    }
  }

  /** MOVE and ATTACK on one entity coexist: exclusivity is per process
      kind, not one command per entity. */
  lemma MoveAndAttackCoexist(unit: ObjId)
    ensures Register([Entry(0, unit, Move)], Entry(1, unit, Attack)) == Ok([Entry(0, unit, Move), Entry(1, unit, Attack)])
    ensures Register([Entry(0, unit, Attack)], Entry(1, unit, Move)) == Ok([Entry(0, unit, Attack), Entry(1, unit, Move)])
  {
    var m, a := Entry(0, unit, Move), Entry(1, unit, Attack);
    assert !Conflicts([m][0], a) && [m] + [a] == [m, a];
    var a', m' := Entry(0, unit, Attack), Entry(1, unit, Move);
    assert !Conflicts([a'][0], m') && [a'] + [m'] == [a', m'];
  }

  /** Registering the same entry twice makes the second attempt fail for a
      MOVE, ATTACK, COLLECT or BUILD, but not for a SPAWN or a DROP. */
  lemma SecondRegistration(l: seq<Entry>, e: Entry, f: Entry)
    requires Register(l, e).Ok? && f.entity == e.entity && f.process == e.process
    ensures Register(Register(l, e).value, f).Err? <==> e.process != Spawn && e.process != Drop
  {
    var l1 := l + [e];
    if e.process != Spawn && e.process != Drop {
      assert Conflicts(l1[|l|], f);
    } else {
      forall k | 0 <= k < |l1| ensures !Conflicts(l1[k], f) {
        if k < |l| { assert !Conflicts(l[k], e); }
      }
    }
  }

  /** Removal deletes exactly one occurrence and keeps the others in order. */
  lemma RemoveShape(l: seq<Entry>, e: Entry)
    requires DistinctIds(l) && e in l
    ensures e !in Remove(l, e)
    ensures |Remove(l, e)| == |l| - 1
    ensures forall x :: x in Remove(l, e) <==> x in l && x != e
  {
    RemoveFirstOccurrence(l, e);
    var i := Position(l, e).value;
    forall k | i < k < |l| ensures l[k] != e {
      assert l[k].cid != l[i].cid;
    }
    assert e !in l[i + 1..];
    assert l == l[..i] + [e] + l[i + 1..];
  }
}
