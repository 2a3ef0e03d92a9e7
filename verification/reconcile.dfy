/** Inbound reconciliation (controller/game_controller.py,
    `network_interactions` and its handlers): decoded messages from other
    processes are applied to the local world. The wire shape of the local
    world's own outbound messages (model/interactions.py) is `Encode`. */
module Reconcile {
  import opened Base
  import opened Text
  import opened World

  /** A decoded JSON value. An object keeps its members in order, and a
      lookup finds the first member with the key. */
  datatype Json = JStr(s: string) | JInt(n: int) | JObj(members: seq<(string, Json)>)

  predicate HasKey(j: Json, key: string) {
    j.JObj? && exists k :: 0 <= k < |j.members| && j.members[k].0 == key
  }

  function Lookup(ms: seq<(string, Json)>, key: string): (r: Result<Json>)
    ensures r.Ok? <==> exists k :: 0 <= k < |ms| && ms[k].0 == key
    ensures r.Ok? ==> (key, r.value) in ms
    ensures r.Err? ==> r.error == MissingKey
  {
    if |ms| == 0 then Err(MissingKey)
    else if ms[0].0 == key then Ok(ms[0].1)
    else
      var r := Lookup(ms[1..], key);
      assert forall k :: 0 <= k < |ms| - 1 ==> ms[1..][k] == ms[k + 1];
      r
  }

  /** The lookup finds the first member with the key. */
  lemma {:induction false} LookupFirst(ms: seq<(string, Json)>, key: string, k: nat)
    requires k < |ms| && ms[k].0 == key
    requires forall i :: 0 <= i < k ==> ms[i].0 != key
    ensures Lookup(ms, key) == Ok(ms[k].1)
  {
    if k > 0 {
      assert ms[0].0 != key;
      LookupFirst(ms[1..], key, k - 1);
    }
  }

  /** In an object whose keys are distinct every member reads back. */
  lemma DistinctFields(ms: seq<(string, Json)>)
    requires forall i, j :: 0 <= i < j < |ms| ==> ms[i].0 != ms[j].0
    ensures forall k :: 0 <= k < |ms| ==> Lookup(ms, ms[k].0) == Ok(ms[k].1)
  {
    forall k | 0 <= k < |ms| ensures Lookup(ms, ms[k].0) == Ok(ms[k].1) {
      LookupFirst(ms, ms[k].0, k);
    }
  }

  /** `j[key]`: an absent key raises KeyError; a string or a number cannot
      be indexed by a key (TypeError). */
  function Field(j: Json, key: string): (r: Result<Json>)
    ensures r.Ok? <==> HasKey(j, key)
    ensures r.Ok? ==> (key, r.value) in j.members
    ensures r.Err? ==> r.error == (if j.JObj? then MissingKey else WrongType)
  {
    if j.JObj? then Lookup(j.members, key) else Err(WrongType)
  }

  /** `j.get(key, default)`: only a dict has `get` (AttributeError). */
  function FieldOr(j: Json, key: string, default: Json): (r: Result<Json>)
    ensures r.Err? <==> !j.JObj?
    ensures r.Err? ==> r.error == MissingAttribute
    ensures j.JObj? && !HasKey(j, key) ==> r == Ok(default)
    ensures HasKey(j, key) ==> r == Field(j, key)
  {
    if !j.JObj? then Err(MissingAttribute)
    else
      match Lookup(j.members, key)
      case Ok(v) => Ok(v)
      case Err(_) => Ok(default)
  }

  /** `str(j)` for the values a player name takes. */
  function Show(j: Json): Result<string> {
    match j
    case JStr(s) => Ok(s)
    case JInt(n) => Ok(IntToString(n))
    case JObj(_) => Err(WrongType)
  }

  function IntOf(j: Json): Result<int> {
    if j.JInt? then Ok(j.n) else Err(WrongType)
  }

  function StrOf(j: Json): Result<string> {
    if j.JStr? then Ok(j.s) else Err(WrongType)
  }

  // ---------------------------------------------------------------------
  // Coordinates on the wire

  /** `str(coordinate)`: "(x,y)". */
  function ShowCoord(c: Coord): string {
    "(" + IntToString(c.x) + "," + IntToString(c.y) + ")"
  }

  /** `get_coordinate().__str__()` of an object that may be off the map. */
  function ShowAt(c: Option<Coord>): string {
    match c
    case None => "None"
    case Some(d) => ShowCoord(d)
  }

  const Parens: set<char> := {'(', ')'}
  const Blanks: set<char> := {' ', '\t', '\n', '\r', '\U{0B}', '\U{0C}'}

  /** Python `int(s)`: surrounding whitespace is ignored. */
  function PyInt(s: string): Option<int> {
    ParseInt(Strip(s, Blanks))
  }

  /** The values of a list of options when none of them is missing. */
  function Somes(os: seq<Option<int>>): (r: Option<seq<int>>)
    ensures r.Some? <==> forall k :: 0 <= k < |os| ==> os[k].Some?
    ensures r.Some? ==> |r.value| == |os| && forall k :: 0 <= k < |os| ==> os[k] == Some(r.value[k])
  {
    if |os| == 0 then Some([])
    else
      var rest := Somes(os[1..]);
      assert forall k :: 0 <= k < |os| - 1 ==> os[1..][k] == os[k + 1];
      if os[0].None? || rest.None? then None
      else Some([os[0].value] + rest.value)
  }

  /** `map(int, parts)` as the `*` unpacking evaluates it: in full. */
  function PyInts(parts: seq<string>): (r: Option<seq<int>>)
    ensures r.Some? ==> |r.value| == |parts|
    ensures r.Some? <==> forall k :: 0 <= k < |parts| ==> PyInt(parts[k]).Some?
    ensures r.Some? ==> forall k :: 0 <= k < |parts| ==> PyInt(parts[k]) == Some(r.value[k])
  {
    var os := seq(|parts|, k requires 0 <= k < |parts| => PyInt(parts[k]));
    assert forall k :: 0 <= k < |parts| ==> os[k] == PyInt(parts[k]);
    Somes(os)
  }

  function CoordParts(s: string): seq<string> {
    SplitAll(Strip(s, Parens), ',')
  }

  /** `Coordinate(*map(int, s.strip("()").split(",")))`. A value that is not
      a string has no `strip`; a part that is not a number raises before the
      number of parts is looked at. */
  function ParseCoord(j: Json): (r: Result<Coord>)
    ensures !j.JStr? ==> r == Err(MissingAttribute)
    ensures j.JStr? && (exists k :: 0 <= k < |CoordParts(j.s)| && PyInt(CoordParts(j.s)[k]).None?) ==> r == Err(BadNumber)
    ensures j.JStr? && (forall k :: 0 <= k < |CoordParts(j.s)| ==> PyInt(CoordParts(j.s)[k]).Some?) ==>
              (r.Ok? <==> |CoordParts(j.s)| == 2) && (r.Err? ==> r.error == WrongArity)
    ensures r.Ok? ==> r.value == Coord(PyInt(CoordParts(j.s)[0]).value, PyInt(CoordParts(j.s)[1]).value)
  {
    if !j.JStr? then Err(MissingAttribute)
    else
      match PyInts(CoordParts(j.s))
      case None => Err(BadNumber)
      case Some(ns) => if |ns| != 2 then Err(WrongArity) else Ok(Coord(ns[0], ns[1]))
  }

  /** An integer printed by Python reads back through `int()`. */
  lemma PyIntRoundTrip(n: int)
    ensures PyInt(IntToString(n)) == Some(n)
    ensures ',' !in IntToString(n) && '(' !in IntToString(n) && ')' !in IntToString(n)
  {
    var s := IntToString(n);
    IntStringChars(n);
    IntStringRoundTrip(n);
    assert |s| > 0 && IsDigit(s[|s| - 1]);
    assert s[0] !in Blanks by {
      assert s[0] == '-' || IsDigit(s[0]);
    }
    StripNothing(s, Blanks);
    IntStringPlain(n);
  }

  /** A printed coordinate splits into its two printed components. */
  lemma PrintedParts(c: Coord)
    ensures CoordParts(ShowCoord(c)) == [IntToString(c.x), IntToString(c.y)]
  {
    PairParts(c.x, c.y);
  }

  lemma PyIntsPair(a: string, b: string, x: int, y: int)
    requires PyInt(a) == Some(x) && PyInt(b) == Some(y)
    ensures PyInts([a, b]) == Some([x, y])
  {
    var parts := [a, b];
    assert PyInt(parts[0]).Some? && PyInt(parts[1]).Some?;
    var r := PyInts(parts).value;
    assert r[0] == x && r[1] == y;
    assert r == [x, y];
  }

  /** Every coordinate the sender prints is read back as itself. */
  lemma CoordRoundTrip(c: Coord)
    ensures ParseCoord(JStr(ShowCoord(c))) == Ok(c)
  {
    PrintedParts(c);
    PyIntRoundTrip(c.x);
    PyIntRoundTrip(c.y);
    PyIntsPair(IntToString(c.x), IntToString(c.y), c.x, c.y);
  }

  /** The coordinate of an object off the map is printed as "None", which
      no receiver can read. */
  lemma NoneUnreadable()
    ensures ParseCoord(JStr(ShowAt(None))) == Err(BadNumber)
  {
    var s := "None";
    assert Strip(s, Parens) == s by { StripNothing(s, Parens); }
    assert IndexOf(s, ',') == None;
    assert CoordParts(s) == [s];
    assert Strip(s, Blanks) == s by { StripNothing(s, Blanks); }
    assert !IsDigit(s[0]);
    assert PyInt(s) == None;
  }

  // ---------------------------------------------------------------------
  // The grid

  /** `d` lies in the size-by-size square whose corner is `c`. */
  predicate InSquare(d: Coord, c: Coord, size: int) {
    c.x <= d.x < c.x + size && c.y <= d.y < c.y + size
  }

  /** Column `i` of the square at `c`, from row `j` on: every cell whose
      occupant is one of `who` is taken off the grid. */
  function ClearColumn(cells: map<Coord, ObjId>, who: set<ObjId>, c: Coord, size: nat, i: nat, j: nat): (r: map<Coord, ObjId>)
    ensures forall d :: d in r <==> d in cells && !(d.x == c.x + i && c.y + j <= d.y < c.y + size && cells[d] in who)
    ensures forall d :: d in r ==> r[d] == cells[d]
    decreases size - j
  {
    if j >= size then cells
    else
      var d := Coord(c.x + i, c.y + j);
      ClearColumn(if d in cells && cells[d] in who then cells - {d} else cells, who, c, size, i, j + 1)
  }

  /** The loop `for i in range(size): for j in range(size)` from column `i` on. */
  function ClearColumns(cells: map<Coord, ObjId>, who: set<ObjId>, c: Coord, size: nat, i: nat): (r: map<Coord, ObjId>)
    ensures forall d :: d in r <==> d in cells && !(c.x + i <= d.x < c.x + size && c.y <= d.y < c.y + size && cells[d] in who)
    ensures forall d :: d in r ==> r[d] == cells[d]
    decreases size - i
  {
    if i >= size then cells
    else ClearColumns(ClearColumn(cells, who, c, size, i, 0), who, c, size, i + 1)
  }

  /** The footprint clearing of the handlers: every cell of the square whose
      occupant is one of `who` is emptied, and nothing else changes. */
  function ClearSquare(cells: map<Coord, ObjId>, who: set<ObjId>, c: Coord, size: nat): (r: map<Coord, ObjId>)
    ensures forall d :: d in r <==> d in cells && !(InSquare(d, c, size) && cells[d] in who)
    ensures forall d :: d in r ==> r[d] == cells[d]
  {
    ClearColumns(cells, who, c, size, 0)
  }

  /** `object and object.get_id() != id` for the object at `c`. */
  predicate Foreign(w: World, c: Coord, idj: Json) {
    ObjectAt(w, c).Some? && JInt(w.objects[ObjectAt(w, c).value].netId) != idj
  }

  // ---------------------------------------------------------------------
  // Objects, actions and players

  /** The classes `create_object` instantiates, by name; a name outside its
      table gives a plain `GameObject()`, which the catalog also answers. */
  type Catalog = string -> GameObject

  /** `create_object`: the "Place Holder" name gives a placeholder. */
  function CreateObject(cat: Catalog, name: string): GameObject {
    if name == PlaceHolderName then PlaceHolder(1) else cat(name)
  }

  datatype Action = PlaceObject | RemoveObject | MoveUnit | AttackAction | CollectResource | DropResource | LinkOwner | Exit

  /** The wire value of each member of `InteractionsTypes`. */
  function ActionName(a: Action): string {
    match a
    case PlaceObject => "PLACE_OBJECT"
    case RemoveObject => "REMOVE_OBJECT"
    case MoveUnit => "MOVE_UNIT"
    case AttackAction => "ATTACK"
    case CollectResource => "COLLECT_RESOURCE"
    case DropResource => "DROP_RESOURCE"
    case LinkOwner => "LINK_OWNER"
    case Exit => "EXIT"
  }

  /** `InteractionsTypes(v)`: the member whose value is `v`, or ValueError. */
  function ActionOf(j: Json): (r: Result<Action>)
    ensures r.Ok? ==> j == JStr(ActionName(r.value))
    ensures forall a :: j == JStr(ActionName(a)) ==> r == Ok(a)
    ensures r.Err? ==> r.error == UnknownAction
  {
    if j == JStr("PLACE_OBJECT") then Ok(PlaceObject)
    else if j == JStr("REMOVE_OBJECT") then Ok(RemoveObject)
    else if j == JStr("MOVE_UNIT") then Ok(MoveUnit)
    else if j == JStr("ATTACK") then Ok(AttackAction)
    else if j == JStr("COLLECT_RESOURCE") then Ok(CollectResource)
    else if j == JStr("DROP_RESOURCE") then Ok(DropResource)
    else if j == JStr("LINK_OWNER") then Ok(LinkOwner)
    else if j == JStr("EXIT") then Ok(Exit)
    else Err(UnknownAction)
  }

  /** The roster keeps its length and its names. */
  predicate SameRoster(w: World, r: World) {
    |r.players| == |w.players| && forall k :: 0 <= k < |w.players| ==> r.players[k].name == w.players[k].name
  }

  lemma SameRosterLookup(w: World, r: World, n: PlayerName)
    requires SameRoster(w, r)
    ensures PlayerNamed(w, n).Some? <==> PlayerNamed(r, n).Some?
  {
    SameNamesSameIndex(w.players, r.players, n);
  }

  /** A player appended under a new name is found at the end. */
  lemma AppendedIndex(ps: seq<Player>, p: Player)
    requires PlayerIndex(ps, p.name).None?
    ensures PlayerIndex(ps + [p], p.name) == Some(|ps|)
  {
    var qs := ps + [p];
    assert forall k :: 0 <= k < |ps| ==> qs[k] == ps[k];
    assert qs[|ps|].name == p.name;
  }

  /** The name a message looks its player up by:
      `interaction.get("player", {}).get("name", "")`. */
  function NameIn(msg: Json): Result<string> {
    var pj :- FieldOr(msg, "player", JObj([]));
    var nj :- FieldOr(pj, "name", JStr(""));
    Show(nj)
  }

  /** `get_player_with_name`, and `__generate_player` when no player has the
      name but the message has a "player" member. The result names the
      player the handler receives, if any. */
  function ResolvePlayer(w: World, msg: Json): (r: Result<(World, Option<PlayerName>)>)
    ensures r.Ok? ==> PlayersOnly(w, r.value.0)
    ensures r.Ok? ==> NameIn(msg).Ok?
    ensures r.Ok? && PlayerNamed(w, NameIn(msg).value).Some? ==> r.value == (w, Some(NameIn(msg).value))
    ensures r.Ok? && PlayerNamed(w, NameIn(msg).value).None? && HasKey(msg, "player") ==>
              r.value == (w.(players := w.players + [NewPlayer(NameIn(msg).value)]), Some(NameIn(msg).value))
    ensures r.Ok? && PlayerNamed(w, NameIn(msg).value).None? && !HasKey(msg, "player") ==> r.value == (w, None)
    ensures r.Ok? && r.value.1.Some? ==> PlayerNamed(r.value.0, r.value.1.value).Some?
    ensures NameIn(msg).Ok? && PlayerNamed(w, NameIn(msg).value).Some? ==> r.Ok?
  {
    var name :- NameIn(msg);
    match PlayerIndex(w.players, name)
    case Some(_) => Ok((w, Some(name)))
    case None =>
      if !HasKey(msg, "player") then Ok((w, None))
      else if !HasKey(Field(msg, "player").value, "name") then Err(MissingKey)
      else
        AppendedIndex(w.players, NewPlayer(name));
        Ok((w.(players := w.players + [NewPlayer(name)]), Some(name)))
  }

  // ---------------------------------------------------------------------
  // Handlers

  /** What every handler keeps: nothing is sent, objects are only added. */
  predicate Grows(w: World, r: World) {
    r.outbox == w.outbox && w.objects.Keys <= r.objects.Keys && w.nextId <= r.nextId
  }

  /** The size the received object ends up with: a placeholder takes the
      received size. */
  function PlacedSize(o: GameObject, size: int): nat {
    if o.name == PlaceHolderName then (if size < 0 then 0 else size) else o.size
  }

  /** The object `__handle_place_object` builds from the message: the
      received name, a placeholder's received size, the received id and
      coordinate. */
  function ReadPlace(cat: Catalog, msg: Json): (r: Result<GameObject>)
    ensures r.Ok? ==> r.value.coord.Some?
  {
    var go :- Field(msg, "game_object");
    var nj :- Field(go, "name");
    var name :- StrOf(nj);
    var o := CreateObject(cat, name);
    var sizej :- if o.name == PlaceHolderName then Field(go, "size") else Ok(JInt(o.size));
    var cj :- Field(go, "coordinate");
    var c :- ParseCoord(cj);
    var idj :- Field(go, "id");
    var id :- IntOf(idj);
    var size :- IntOf(sizej);
    Ok(o.(size := PlacedSize(o, size), netId := id, coord := Some(c)))
  }

  /** A new object on the grid at its coordinate, after the occupied cells
      of its footprint have been emptied; every other cell keeps its
      occupant. */
  function PlaceNew(w: World, o: GameObject): (r: World)
    requires o.coord.Some?
    ensures Grows(w, r) && r.players == w.players
    ensures r.objects == w.objects[w.nextId := o] && r.nextId == w.nextId + 1
    ensures o.coord.value in r.cells && r.cells[o.coord.value] == w.nextId
    ensures forall d :: d != o.coord.value ==>
              (d in r.cells <==> d in w.cells && !(InSquare(d, o.coord.value, o.size) && w.cells[d] in w.objects))
    ensures forall d :: d != o.coord.value && d in r.cells ==> r.cells[d] == w.cells[d]
  {
    var c := o.coord.value;
    var cells := ClearSquare(w.cells, w.objects.Keys, c, o.size);
    var (w1, oid) := Allocate(w, o);
    w1.(cells := cells[c := oid])
  }

  /** `__handle_place_object`. */
  function HandlePlace(w: World, cat: Catalog, msg: Json): (r: Result<World>)
    ensures r.Ok? ==> Grows(w, r.value) && r.value.players == w.players
    ensures r.Ok? ==> r.value.objects.Keys == w.objects.Keys + {w.nextId}
    ensures r.Ok? ==> ReadPlace(cat, msg).Ok? && r.value == PlaceNew(w, ReadPlace(cat, msg).value)
  {
    var o :- ReadPlace(cat, msg);
    Ok(PlaceNew(w, o))
  }

  /** `__handle_remove_object` as written: the id and the coordinate are
      read from the top level of the message. */
  function HandleRemoveAsWritten(w: World, msg: Json): (r: Result<World>)
    ensures r.Ok? ==> Grows(w, r.value) && r.value.objects == w.objects && r.value.players == w.players
    ensures !HasKey(msg, "coordinate") ==> r.Err?
  {
    var cj :- Field(msg, "coordinate");
    RemoveAt(w, msg, cj)
  }

  /** `__handle_remove_object` reading the "game_object" member the sender
      writes: the object at the coordinate leaves the grid if its id is the
      received one. */
  function HandleRemove(w: World, msg: Json): (r: Result<World>)
    ensures r.Ok? ==> Grows(w, r.value) && r.value.objects == w.objects && r.value.players == w.players
    ensures r.Ok? ==> forall d :: d in r.value.cells ==> d in w.cells && r.value.cells[d] == w.cells[d]
  {
    var go :- Field(msg, "game_object");
    var cj :- Field(go, "coordinate");
    RemoveAt(w, go, cj)
  }

  /** The shared tail of both readings: parse, look, compare, remove. */
  function RemoveAt(w: World, holder: Json, cj: Json): (r: Result<World>)
    ensures r.Ok? ==> r.value.objects == w.objects && r.value.players == w.players && Grows(w, r.value)
    ensures r.Ok? ==> forall d :: d in r.value.cells ==> d in w.cells && r.value.cells[d] == w.cells[d]
  {
    var c :- ParseCoord(cj);
    match ObjectAt(w, c)
    case None => Ok(w)
    case Some(o) =>
      var idj :- Field(holder, "id");
      if JInt(w.objects[o].netId) == idj then Ok(w.(cells := w.cells - {c})) else Ok(w)
  }

  /** `get_unit`: the position of the first of `units` whose id is `idj`. */
  function FindUnit(w: World, units: seq<ObjId>, idj: Json): (r: Option<nat>)
    ensures r.Some? ==> r.value < |units| && units[r.value] in w.objects && idj == JInt(w.objects[units[r.value]].netId)
    ensures r.Some? ==> forall k :: 0 <= k < r.value && units[k] in w.objects ==> idj != JInt(w.objects[units[k]].netId)
    ensures r.None? ==> forall k :: 0 <= k < |units| && units[k] in w.objects ==> idj != JInt(w.objects[units[k]].netId)
  {
    if |units| == 0 then None
    else if units[0] in w.objects && idj == JInt(w.objects[units[0]].netId) then Some(0)
    else
      match FindUnit(w, units[1..], idj)
      case None => None
      case Some(k) => Some(k + 1)
  }

  /** A known unit moves to `c`: its old cell is emptied if occupied, a
      different occupant of `c` leaves the grid, and the unit takes `c`. */
  function MoveKnown(w: World, uid: ObjId, c: Coord, idj: Json): (r: World)
    requires uid in w.objects
    ensures Grows(w, r) && r.players == w.players && r.nextId == w.nextId
    ensures r.objects == w.objects[uid := w.objects[uid].(coord := Some(c))]
    ensures ObjectAt(r, c) == Some(uid)
    ensures forall d :: d != c && d in r.cells ==> d in w.cells && r.cells[d] == w.cells[d]
    ensures forall d :: d != c && d in w.cells && Some(d) != w.objects[uid].coord ==> d in r.cells
    ensures var from := w.objects[uid].coord;
            from.Some? && from.value != c && ObjectAt(w, from.value).Some? ==> from.value !in r.cells
  {
    var from := w.objects[uid].coord;
    var cells1 := if from.Some? && ObjectAt(w, from.value).Some? then w.cells - {from.value} else w.cells;
    var cells2 := if Foreign(w, c, idj) then cells1 - {c} else cells1;
    UpdateObject(w, uid, w.objects[uid].(coord := Some(c))).(cells := cells2[c := uid])
  }

  /** An unknown id: a new unit with the received name and id joins the
      player and takes `c`, a different occupant of `c` leaving the grid. */
  function MoveNew(w: World, cat: Catalog, player: PlayerName, u: Json, idj: Json, c: Coord): (r: Result<World>)
    requires PlayerNamed(w, player).Some?
    ensures r.Ok? ==> Grows(w, r.value) && SameRoster(w, r.value) && r.value.nextId == w.nextId + 1
    ensures r.Ok? ==> idj.JInt? && r.value.objects.Keys == w.objects.Keys + {w.nextId}
    ensures r.Ok? ==> forall id :: id in w.objects && id != w.nextId ==> r.value.objects[id] == w.objects[id]
    ensures r.Ok? ==> r.value.objects[w.nextId].netId == idj.n && r.value.objects[w.nextId].coord == Some(c)
    ensures r.Ok? ==> ObjectAt(r.value, c) == Some(w.nextId)
    ensures r.Ok? ==> PlayerNamed(r.value, player).Some? && w.nextId in PlayerNamed(r.value, player).value.units
    ensures r.Ok? ==> forall d :: d != c && d in r.value.cells ==> d in w.cells && r.value.cells[d] == w.cells[d]
  {
    var nj :- Field(u, "name");
    var name :- StrOf(nj);
    var id :- IntOf(idj);
    var o := CreateObject(cat, name);
    var (w1, uid) := Allocate(w, o.(netId := id, coord := Some(c)));
    var w2 := AddUnit(w1, player, uid);
    var cells := if Foreign(w, c, idj) then w.cells - {c} else w.cells;
    SameResourcesLookup(w1, w2, player);
    Ok(w2.(cells := cells[c := uid]))
  }

  /** `__handle_move_unit`: a unit of the named player with the received id
      is moved; without one, a new unit is created for the player. */
  function HandleMove(w: World, cat: Catalog, msg: Json, player: Option<PlayerName>): (r: Result<World>)
    ensures r.Ok? ==> Grows(w, r.value) && SameRoster(w, r.value)
    ensures r.Ok? ==> player.Some? && PlayerNamed(w, player.value).Some?
  {
    var u :- Field(msg, "unit");
    var idj :- Field(u, "id");
    var known := if player.Some? then PlayerNamed(w, player.value) else None;
    if known.None? then Err(MissingAttribute)
    else
      var found := FindUnit(w, known.value.units, idj);
      var cj :- Field(u, "coordinate");
      var c :- ParseCoord(cj);
      match found
      case None => MoveNew(w, cat, player.value, u, idj, c)
      case Some(k) => Ok(MoveKnown(w, known.value.units[k], c, idj))
  }

  /** `__handle_link_owner`, the branch that runs: the freshly created
      entity is never among the player's units or buildings, so a unit
      clears the footprint of a different occupant, takes the cell and joins
      the player's units, and a building joins the player's buildings
      without a cell. The entity keeps its own local id. */
  function HandleLink(w: World, cat: Catalog, msg: Json, player: Option<PlayerName>): (r: Result<World>)
    ensures r.Ok? ==> Grows(w, r.value) && SameRoster(w, r.value)
    ensures r.Ok? ==> r.value.objects.Keys == w.objects.Keys + {w.nextId}
    ensures r.Ok? && r.value.objects[w.nextId].IsUnit() ==>
              player.Some? && PlayerNamed(r.value, player.value).Some? &&
              w.nextId in PlayerNamed(r.value, player.value).value.units &&
              r.value.objects[w.nextId].coord.Some? && ObjectAt(r.value, r.value.objects[w.nextId].coord.value) == Some(w.nextId)
    ensures r.Ok? && r.value.objects[w.nextId].IsBuilding() ==>
              player.Some? && PlayerNamed(r.value, player.value).Some? &&
              w.nextId in PlayerNamed(r.value, player.value).value.buildings && r.value.cells == w.cells
  {
    var ent :- Field(msg, "entity");
    var nj :- Field(ent, "name");
    var name :- StrOf(nj);
    var o := CreateObject(cat, name);
    var cj :- Field(ent, "coordinate");
    var c :- ParseCoord(cj);
    var (w1, eid) := Create(w, o.(coord := Some(c)));
    var known := if player.Some? then PlayerNamed(w, player.value) else None;
    if o.IsUnit() then
      if known.None? then Err(MissingAttribute)
      else
        var cleared :- FreeFootprint(w, ent, c);
        LinkedUnit(w, o.(coord := Some(c)), c, player.value, cleared);
        Ok(AddUnit(w1.(cells := cleared[c := eid]), player.value, eid))
    else if o.IsBuilding() then
      if known.None? then Err(MissingAttribute)
      else
        LinkedBuilding(w, o.(coord := Some(c)), player.value);
        Ok(AddBuilding(w1, player.value, eid))
    else Ok(w1)
  }

  /** A linked unit is created, takes its cell and joins the player's units. */
  lemma LinkedUnit(w: World, o: GameObject, c: Coord, p: PlayerName, cleared: map<Coord, ObjId>)
    requires PlayerNamed(w, p).Some?
    ensures var (w1, eid) := Create(w, o);
            var r := AddUnit(w1.(cells := cleared[c := eid]), p, eid);
            Grows(w, r) && SameRoster(w, r) && r.objects.Keys == w.objects.Keys + {w.nextId} &&
            r.objects[w.nextId] == o.(netId := w.nextId) &&
            PlayerNamed(r, p).Some? && w.nextId in PlayerNamed(r, p).value.units && ObjectAt(r, c) == Some(w.nextId)
  {
    var (w1, eid) := Create(w, o);
    var w2 := w1.(cells := cleared[c := eid]);
    SameResourcesLookup(w2, AddUnit(w2, p, eid), p);
  }

  /** A linked building is created without a cell and joins the player's
      buildings. */
  lemma LinkedBuilding(w: World, o: GameObject, p: PlayerName)
    requires PlayerNamed(w, p).Some?
    ensures var (w1, eid) := Create(w, o);
            var r := AddBuilding(w1, p, eid);
            Grows(w, r) && SameRoster(w, r) && r.objects.Keys == w.objects.Keys + {w.nextId} &&
            r.objects[w.nextId] == o.(netId := w.nextId) && r.cells == w.cells &&
            PlayerNamed(r, p).Some? && w.nextId in PlayerNamed(r, p).value.buildings
  {
    var (w1, eid) := Create(w, o);
    SameResourcesLookup(w1, AddBuilding(w1, p, eid), p);
  }

  /** The link handler's clearing: a different occupant of `c` has every
      cell of its own footprint at `c` removed, occupied or not. */
  function FreeFootprint(w: World, ent: Json, c: Coord): (r: Result<map<Coord, ObjId>>)
    ensures r.Ok? ==> forall d :: d in r.value ==> d in w.cells && r.value[d] == w.cells[d]
    ensures ObjectAt(w, c).None? ==> r == Ok(w.cells)
  {
    match ObjectAt(w, c)
    case None => Ok(w.cells)
    case Some(o) =>
      var idj :- Field(ent, "id");
      if JInt(w.objects[o].netId) != idj then Ok(ClearSquare(w.cells, w.cells.Values, c, w.objects[o].size))
      else Ok(w.cells)
  }

  /** Every element but the one at `i`. */
  function DeleteAt<T>(s: seq<T>, i: nat): (r: seq<T>)
    requires i < |s|
    ensures |r| == |s| - 1
    ensures forall k :: 0 <= k < i ==> r[k] == s[k]
    ensures forall k :: i <= k < |r| ==> r[k] == s[k + 1]
  {
    s[..i] + s[i + 1..]
  }

  /** `player_leave`: the player leaves the roster; `list.remove(None)`
      raises ValueError. */
  function HandleExit(w: World, player: Option<PlayerName>): (r: Result<World>)
    ensures r.Ok? ==> player.Some? && PlayerIndex(w.players, player.value).Some?
    ensures r.Ok? ==> r.value.players == DeleteAt(w.players, PlayerIndex(w.players, player.value).value)
    ensures r.Ok? ==> PlayersOnly(w, r.value)
    ensures player.Some? && PlayerIndex(w.players, player.value).Some? ==> r.Ok?
  {
    if player.None? then Err(NotListed)
    else
      match PlayerIndex(w.players, player.value)
      case None => Err(NotListed)
      case Some(i) => Ok(w.(players := DeleteAt(w.players, i)))
  }

  /** The handler of each action. ATTACK, COLLECT_RESOURCE and
      DROP_RESOURCE have empty handlers. */
  function Route(a: Action, w: World, cat: Catalog, msg: Json, player: Option<PlayerName>): (r: Result<World>)
    ensures r.Ok? ==> Grows(w, r.value)
    ensures a != Exit && r.Ok? ==> SameRoster(w, r.value)
  {
    match a
    case PlaceObject => HandlePlace(w, cat, msg)
    case RemoveObject => HandleRemove(w, msg)
    case MoveUnit => HandleMove(w, cat, msg, player)
    case AttackAction => Ok(w)
    case CollectResource => Ok(w)
    case DropResource => Ok(w)
    case LinkOwner => HandleLink(w, cat, msg, player)
    case Exit => HandleExit(w, player)
  }

  /** One inbound message: the action is read first, then the player is
      resolved, then the action's handler runs. */
  function Handle(w: World, cat: Catalog, msg: Json): (r: Result<World>)
    ensures r.Ok? ==> Grows(w, r.value)
    ensures r.Ok? ==> Field(msg, "action").Ok? && ActionOf(Field(msg, "action").value).Ok?
    ensures Field(msg, "action").Err? ==> r == Err(Field(msg, "action").error)
    ensures Field(msg, "action").Ok? && ActionOf(Field(msg, "action").value).Err? ==> r == Err(UnknownAction)
  {
    var aj :- Field(msg, "action");
    var a :- ActionOf(aj);
    var resolved :- ResolvePlayer(w, msg);
    Route(a, resolved.0, cat, msg, resolved.1)
  }

  /** A message with a known action and a resolved player goes to the
      action's handler. */
  lemma Dispatch(w: World, cat: Catalog, m: Json, a: Action, w1: World, player: Option<PlayerName>)
    requires Field(m, "action") == Ok(JStr(ActionName(a)))
    requires ResolvePlayer(w, m) == Ok((w1, player))
    ensures Handle(w, cat, m) == Route(a, w1, cat, m, player)
  {
  }

  /** `network_interactions`: the received messages in order. Nothing in the
      loop catches, so the first error ends the pass. */
  function Receive(w: World, cat: Catalog, msgs: seq<Json>): (r: Result<World>)
    ensures r.Ok? ==> Grows(w, r.value)
    decreases |msgs|
  {
    if |msgs| == 0 then Ok(w)
    else
      var w1 :- Handle(w, cat, msgs[0]);
      Receive(w1, cat, msgs[1..])
  }

  // ---------------------------------------------------------------------
  // The wire shape of outbound messages (model/interactions.py)

  function Obj3(id: ObjId, name: string, at: string): Json {
    JObj([("id", JInt(id)), ("name", JStr(name)), ("coordinate", JStr(at))])
  }

  function PlayerObj(name: PlayerName): Json {
    JObj([("name", JStr(name))])
  }

  /** The JSON an outbound message is sent as. The announcement a command
      makes of itself has no wire shape of its own. */
  function Encode(m: Message): Option<Json> {
    match m
    case PlaceObjectMsg(id, name, size, c) =>
      Some(JObj([("action", JStr("PLACE_OBJECT")),
                 ("game_object", JObj([("id", JInt(id)), ("name", JStr(name)), ("size", JInt(size)),
                                       ("coordinate", JStr(ShowCoord(c)))]))]))
    case RemoveObjectMsg(id, at) =>
      Some(JObj([("action", JStr("REMOVE_OBJECT")),
                 ("game_object", JObj([("id", JInt(id)), ("coordinate", JStr(ShowAt(at)))]))]))
    case MoveUnitMsg(p, id, name, c, from) =>
      Some(JObj([("action", JStr("MOVE_UNIT")), ("player", PlayerObj(p)),
                 ("unit", JObj([("id", JInt(id)), ("name", JStr(name)), ("coordinate", JStr(ShowCoord(c))),
                                ("old_coordinate", JStr(ShowAt(from)))]))]))
    case AttackMsg(p, aid, aname, aat, tid, tname, tat) =>
      Some(JObj([("action", JStr("ATTACK")), ("player", PlayerObj(p)),
                 ("attacker", Obj3(aid, aname, ShowCoord(aat))), ("target", Obj3(tid, tname, ShowAt(tat)))]))
    case CollectResourceMsg(p, vid, vname, vat, rid, rname, rat, remaining, amount) =>
      Some(JObj([("action", JStr("COLLECT_RESOURCE")), ("player", PlayerObj(p)),
                 ("villager", Obj3(vid, vname, ShowCoord(vat))),
                 ("resource", JObj([("id", JInt(rid)), ("name", JStr(rname)), ("coordinate", JStr(ShowAt(rat))),
                                    ("hp", JInt(remaining))])),
                 ("amount", JInt(amount))]))
    case DropResourceMsg(p, vid, vname, vat, tid, tname, tat, _) =>
      Some(JObj([("action", JStr("DROP_RESOURCE")), ("player", PlayerObj(p)),
                 ("villager", Obj3(vid, vname, ShowCoord(vat))), ("target", Obj3(tid, tname, ShowAt(tat)))]))
    case LinkOwnerMsg(p, id, name, at) =>
      Some(JObj([("action", JStr("LINK_OWNER")), ("player", PlayerObj(p)), ("entity", Obj3(id, name, ShowAt(at)))]))
    case CommandSent(_, _) => None
  }

  // ---------------------------------------------------------------------
  // Properties

  /** A pass over `a + b` is a pass over `a` and then, if it got through,
      a pass over `b`. */
  lemma {:induction false} ReceiveSplits(w: World, cat: Catalog, a: seq<Json>, b: seq<Json>)
    ensures Receive(w, cat, a + b) ==
              match Receive(w, cat, a)
              case Err(e) => Err(e)
              case Ok(w1) => Receive(w1, cat, b)
    decreases |a|
  {
    if |a| == 0 {
      assert a + b == b;
    } else {
      assert (a + b)[0] == a[0] && (a + b)[1..] == a[1..] + b;
      match Handle(w, cat, a[0])
      case Err(_) =>
      case Ok(w1) => ReceiveSplits(w1, cat, a[1..], b);
    }
  }

  /** A message without a "player" member leaves the roster alone. */
  lemma NoPlayerMember(w: World, m: Json)
    requires m.JObj? && !HasKey(m, "player")
    ensures ResolvePlayer(w, m).Ok? && ResolvePlayer(w, m).value.0 == w
  {
    assert FieldOr(m, "player", JObj([])) == Ok(JObj([]));
    assert FieldOr(JObj([]), "name", JStr("")) == Ok(JStr(""));
    assert NameIn(m) == Ok("");
  }

  /** The object an encoded PLACE_OBJECT carries. */
  function PlacedObj(id: ObjId, name: string, size: nat, c: Coord): Json {
    JObj([("id", JInt(id)), ("name", JStr(name)), ("size", JInt(size)), ("coordinate", JStr(ShowCoord(c)))])
  }

  /** The `game_object` member of an encoded PLACE_OBJECT. */
  lemma PlaceMember(id: ObjId, name: string, size: nat, c: Coord)
    ensures Field(Encode(PlaceObjectMsg(id, name, size, c)).value, "game_object") == Ok(PlacedObj(id, name, size, c))
  {
    var m := Encode(PlaceObjectMsg(id, name, size, c)).value;
    LookupFirst(m.members, "game_object", 1);
  }

  /** The members the place handler reads from the carried object. */
  lemma PlacedObjFields(id: ObjId, name: string, size: nat, c: Coord)
    ensures var go := PlacedObj(id, name, size, c);
            Field(go, "id") == Ok(JInt(id)) && Field(go, "name") == Ok(JStr(name)) &&
            Field(go, "size") == Ok(JInt(size)) && Field(go, "coordinate") == Ok(JStr(ShowCoord(c)))
  {
    var ms := PlacedObj(id, name, size, c).members;
    assert ms[0].0 == "id" && ms[1].0 == "name" && ms[2].0 == "size" && ms[3].0 == "coordinate";
    DistinctFields(ms);
    assert Lookup(ms, ms[0].0) == Ok(ms[0].1) && Lookup(ms, ms[1].0) == Ok(ms[1].1);
    assert Lookup(ms, ms[2].0) == Ok(ms[2].1) && Lookup(ms, ms[3].0) == Ok(ms[3].1);
  }

  /** The members the place handler reads from an encoded PLACE_OBJECT. */
  lemma PlaceFields(id: ObjId, name: string, size: nat, c: Coord)
    ensures var go := PlacedObj(id, name, size, c);
            Field(Encode(PlaceObjectMsg(id, name, size, c)).value, "game_object") == Ok(go) &&
            Field(go, "id") == Ok(JInt(id)) && Field(go, "name") == Ok(JStr(name)) &&
            Field(go, "size") == Ok(JInt(size)) && Field(go, "coordinate") == Ok(JStr(ShowCoord(c)))
  {
    PlaceMember(id, name, size, c);
    PlacedObjFields(id, name, size, c);
  }

  /** The object a receiver builds from an encoded PLACE_OBJECT. */
  lemma PlaceRead(cat: Catalog, id: ObjId, name: string, size: nat, c: Coord)
    ensures var o := CreateObject(cat, name);
            ReadPlace(cat, Encode(PlaceObjectMsg(id, name, size, c)).value)
              == Ok(o.(size := PlacedSize(o, size), netId := id, coord := Some(c)))
  {
    PlaceFields(id, name, size, c);
    CoordRoundTrip(c);
  }

  /** The handling of an encoded PLACE_OBJECT is one placement. */
  lemma PlaceHandled(w: World, cat: Catalog, id: ObjId, name: string, size: nat, c: Coord)
    ensures var o := CreateObject(cat, name);
            Handle(w, cat, Encode(PlaceObjectMsg(id, name, size, c)).value)
              == Ok(PlaceNew(w, o.(size := PlacedSize(o, size), netId := id, coord := Some(c))))
  {
    var m := Encode(PlaceObjectMsg(id, name, size, c)).value;
    LookupFirst(m.members, "action", 0);
    NoPlayerMember(w, m);
    PlaceRead(cat, id, name, size, c);
    Dispatch(w, cat, m, PlaceObject, w, ResolvePlayer(w, m).value.1);
  }

  /** A receiver mirrors a PLACE_OBJECT: the new object carries the sender's
      id, name and coordinate and sits at that coordinate; the footprint's
      other occupied cells are emptied and the rest of the grid is kept. */
  lemma PlaceMirrored(w: World, cat: Catalog, id: ObjId, name: string, size: nat, c: Coord)
    ensures var r := Handle(w, cat, Encode(PlaceObjectMsg(id, name, size, c)).value);
            var o := CreateObject(cat, name);
            var sz := PlacedSize(o, size);
            r.Ok? && r.value.players == w.players &&
            r.value.objects[w.nextId] == o.(size := sz, netId := id, coord := Some(c)) &&
            ObjectAt(r.value, c) == Some(w.nextId) &&
            (forall d :: d != c && InSquare(d, c, sz) && d in w.cells && w.cells[d] in w.objects ==> d !in r.value.cells) &&
            (forall d :: d != c && !InSquare(d, c, sz) ==> (d in r.value.cells <==> d in w.cells)) &&
            (forall d :: d != c && !InSquare(d, c, sz) && d in r.value.cells ==> r.value.cells[d] == w.cells[d])
  {
    var o := CreateObject(cat, name);
    var placed := o.(size := PlacedSize(o, size), netId := id, coord := Some(c));
    PlaceHandled(w, cat, id, name, size, c);
    var r := PlaceNew(w, placed);
    assert r.objects[w.nextId] == placed;
  }

  /** The roster after a message naming `p` with a "player" member: `p` is
      known, and a new player was appended only if `p` was unknown. */
  lemma NamedPlayerResolved(w: World, m: Json, p: PlayerName)
    requires m.JObj? && Field(m, "player") == Ok(PlayerObj(p))
    ensures NameIn(m) == Ok(p)
    ensures ResolvePlayer(w, m).Ok? && ResolvePlayer(w, m).value.1 == Some(p)
    ensures var w1 := ResolvePlayer(w, m).value.0;
            PlayerNamed(w1, p).Some? && PlayersOnly(w, w1) &&
            (PlayerNamed(w, p).Some? ==> w1 == w) &&
            (PlayerNamed(w, p).None? ==> w1.players == w.players + [NewPlayer(p)])
  {
    LookupFirst(PlayerObj(p).members, "name", 0);
    assert FieldOr(m, "player", JObj([])) == Ok(PlayerObj(p));
  }

  function UnitObj(id: ObjId, name: string, c: Coord, from: Option<Coord>): Json {
    JObj([("id", JInt(id)), ("name", JStr(name)), ("coordinate", JStr(ShowCoord(c))), ("old_coordinate", JStr(ShowAt(from)))])
  }

  /** The top-level members of an encoded MOVE_UNIT. */
  lemma MoveUnitMembers(p: PlayerName, id: ObjId, name: string, c: Coord, from: Option<Coord>)
    ensures var m := Encode(MoveUnitMsg(p, id, name, c, from)).value;
            m.JObj? && Field(m, "action") == Ok(JStr("MOVE_UNIT")) &&
            Field(m, "player") == Ok(PlayerObj(p)) && Field(m, "unit") == Ok(UnitObj(id, name, c, from))
  {
    var m := Encode(MoveUnitMsg(p, id, name, c, from)).value;
    LookupFirst(m.members, "action", 0);
    LookupFirst(m.members, "player", 1);
    LookupFirst(m.members, "unit", 2);
  }

  /** The members the move handler reads from a unit object. */
  lemma UnitObjFields(id: ObjId, name: string, c: Coord, from: Option<Coord>)
    ensures var unit := UnitObj(id, name, c, from);
            Field(unit, "id") == Ok(JInt(id)) && Field(unit, "name") == Ok(JStr(name)) &&
            Field(unit, "coordinate") == Ok(JStr(ShowCoord(c)))
  {
    var ms := UnitObj(id, name, c, from).members;
    assert ms[0].0 == "id" && ms[1].0 == "name" && ms[2].0 == "coordinate" && ms[3].0 == "old_coordinate";
    DistinctFields(ms);
    assert Lookup(ms, ms[0].0) == Ok(ms[0].1) && Lookup(ms, ms[1].0) == Ok(ms[1].1);
    assert Lookup(ms, ms[2].0) == Ok(ms[2].1);
  }

  /** The members the move handler reads from an encoded MOVE_UNIT. */
  lemma UnitFields(p: PlayerName, id: ObjId, name: string, c: Coord, from: Option<Coord>)
    ensures var m := Encode(MoveUnitMsg(p, id, name, c, from)).value;
            var unit := UnitObj(id, name, c, from);
            Field(m, "unit") == Ok(unit) && Field(unit, "id") == Ok(JInt(id)) &&
            Field(unit, "name") == Ok(JStr(name)) && Field(unit, "coordinate") == Ok(JStr(ShowCoord(c)))
  {
    MoveUnitMembers(p, id, name, c, from);
    UnitObjFields(id, name, c, from);
  }

  /** The move handler on an encoded MOVE_UNIT for a known player. */
  lemma MoveRead(w1: World, cat: Catalog, p: PlayerName, id: ObjId, name: string, c: Coord, from: Option<Coord>)
    requires PlayerNamed(w1, p).Some?
    ensures var found := FindUnit(w1, PlayerNamed(w1, p).value.units, JInt(id));
            HandleMove(w1, cat, Encode(MoveUnitMsg(p, id, name, c, from)).value, Some(p)) ==
              if found.None? then MoveNew(w1, cat, p, UnitObj(id, name, c, from), JInt(id), c)
              else Ok(MoveKnown(w1, PlayerNamed(w1, p).value.units[found.value], c, JInt(id)))
  {
    UnitFields(p, id, name, c, from);
    CoordRoundTrip(c);
  }

  /** A message naming MOVE_UNIT and a player goes to the move handler
      once the player is resolved. */
  lemma MoveRouted(w: World, cat: Catalog, m: Json, p: PlayerName)
    requires m.JObj? && Field(m, "action") == Ok(JStr("MOVE_UNIT")) && Field(m, "player") == Ok(PlayerObj(p))
    ensures ResolvePlayer(w, m).Ok? &&
            var w1 := ResolvePlayer(w, m).value.0;
            PlayerNamed(w1, p).Some? && PlayersOnly(w, w1) &&
            Handle(w, cat, m) == HandleMove(w1, cat, m, Some(p))
  {
    NamedPlayerResolved(w, m, p);
    var w1 := ResolvePlayer(w, m).value.0;
    Dispatch(w, cat, m, MoveUnit, w1, Some(p));
  }

  /** The handling of an encoded MOVE_UNIT: the player is resolved, then the
      unit with the id is moved or a new one is made. */
  lemma MoveHandled(w: World, cat: Catalog, p: PlayerName, id: ObjId, name: string, c: Coord, from: Option<Coord>)
    ensures var m := Encode(MoveUnitMsg(p, id, name, c, from)).value;
            ResolvePlayer(w, m).Ok? &&
            var w1 := ResolvePlayer(w, m).value.0;
            PlayerNamed(w1, p).Some? && PlayersOnly(w, w1) &&
            Handle(w, cat, m) == HandleMove(w1, cat, m, Some(p))
  {
    MoveUnitMembers(p, id, name, c, from);
    MoveRouted(w, cat, Encode(MoveUnitMsg(p, id, name, c, from)).value, p);
  }


  /** A receiver mirrors a MOVE_UNIT: the sender's player is known
      afterwards and owns a unit with the sender's id that sits at the
      destination; no cell other than the destination gains an occupant. */
  lemma MoveMirrored(w: World, cat: Catalog, p: PlayerName, id: ObjId, name: string, c: Coord, from: Option<Coord>)
    ensures var r := Handle(w, cat, Encode(MoveUnitMsg(p, id, name, c, from)).value);
            r.Ok? && PlayerNamed(r.value, p).Some? && ObjectAt(r.value, c).Some? &&
            (var u := ObjectAt(r.value, c).value;
             u in PlayerNamed(r.value, p).value.units && r.value.objects[u].netId == id && r.value.objects[u].coord == Some(c)) &&
            (forall d :: d != c && d in r.value.cells ==> d in w.cells && r.value.cells[d] == w.cells[d])
  {
    var m := Encode(MoveUnitMsg(p, id, name, c, from)).value;
    MoveHandled(w, cat, p, id, name, c, from);
    var w1 := ResolvePlayer(w, m).value.0;
    MoveRead(w1, cat, p, id, name, c, from);
    var known := PlayerNamed(w1, p).value;
    match FindUnit(w1, known.units, JInt(id))
    case None =>
      UnitFields(p, id, name, c, from);
    case Some(k) =>
      var r := MoveKnown(w1, known.units[k], c, JInt(id));
      assert PlayerNamed(r, p) == PlayerNamed(w1, p);
  }

  /** A message naming a player that is not an EXIT leaves that player
      on the roster, whether or not it was known before. */
  lemma NamedPlayerStays(w: World, cat: Catalog, m: Json, a: Action, n: PlayerName)
    requires m.JObj? && Field(m, "player") == Ok(PlayerObj(n))
    requires Field(m, "action") == Ok(JStr(ActionName(a))) && a != Exit
    ensures Handle(w, cat, m).Ok? ==> PlayerNamed(Handle(w, cat, m).value, n).Some?
  {
    if Handle(w, cat, m).Ok? {
      NamedPlayerResolved(w, m, n);
      var w1 := ResolvePlayer(w, m).value.0;
      Dispatch(w, cat, m, a, w1, Some(n));
      SameRosterLookup(w1, Handle(w, cat, m).value, n);
    }
  }

  function ExitMsg(n: PlayerName): Json {
    JObj([("action", JStr("EXIT")), ("player", PlayerObj(n))])
  }

  /** EXIT takes the named player off the roster. A player not known
      before is created for the message and taken off again, so the roster
      is as it was. */
  lemma ExitLeaves(w: World, cat: Catalog, n: PlayerName)
    ensures var r := Handle(w, cat, ExitMsg(n));
            r.Ok? && PlayersOnly(w, r.value) &&
            r.value.players == match PlayerIndex(w.players, n)
                               case Some(i) => DeleteAt(w.players, i)
                               case None => w.players
  {
    var m := ExitMsg(n);
    LookupFirst(m.members, "action", 0);
    LookupFirst(m.members, "player", 1);
    NamedPlayerResolved(w, m, n);
    var w1 := ResolvePlayer(w, m).value.0;
    Dispatch(w, cat, m, Exit, w1, Some(n));
    if PlayerIndex(w.players, n).None? {
      AppendedIndex(w.players, NewPlayer(n));
      assert DeleteAt(w1.players, |w.players|) == w.players;
    }
  }

  function RemoveMsg(id: ObjId, at: Option<Coord>): Json {
    Encode(RemoveObjectMsg(id, at)).value
  }

  /** The REMOVE_OBJECT handler as written never finds the coordinate in
      what the sender sends, whatever the object: the KeyError it raises is
      caught nowhere. */
  lemma RemoveAsWrittenFails(w: World, id: ObjId, at: Option<Coord>)
    ensures HandleRemoveAsWritten(w, RemoveMsg(id, at)) == Err(MissingKey)
  {
    var m := RemoveMsg(id, at);
    assert m.members[0].0 == "action" && m.members[1].0 == "game_object";
    assert !HasKey(m, "coordinate");
  }

  /** What the corrected handler reads from a REMOVE_OBJECT message. */
  lemma RemoveRead(w: World, id: ObjId, c: Coord)
    ensures var go := JObj([("id", JInt(id)), ("coordinate", JStr(ShowCoord(c)))]);
            HandleRemove(w, RemoveMsg(id, Some(c))) == RemoveAt(w, go, JStr(ShowCoord(c))) &&
            Field(go, "id") == Ok(JInt(id))
  {
    var m := RemoveMsg(id, Some(c));
    var go := JObj([("id", JInt(id)), ("coordinate", JStr(ShowCoord(c)))]);
    LookupFirst(m.members, "game_object", 1);
    LookupFirst(go.members, "id", 0);
    LookupFirst(go.members, "coordinate", 1);
  }

  /** The removal itself once coordinate and id are read. */
  lemma RemoveAtMatches(w: World, holder: Json, c: Coord, id: ObjId)
    requires Field(holder, "id") == Ok(JInt(id))
    ensures RemoveAt(w, holder, JStr(ShowCoord(c))) ==
              Ok(if ObjectAt(w, c).Some? && w.objects[ObjectAt(w, c).value].netId == id
                 then w.(cells := w.cells - {c}) else w)
  {
    CoordRoundTrip(c);
  }

  /** With the nested reading, a receiver mirrors a REMOVE_OBJECT: the cell
      is emptied exactly when its object has the sender's id. */
  lemma RemoveMirrored(w: World, cat: Catalog, id: ObjId, c: Coord)
    ensures var r := Handle(w, cat, RemoveMsg(id, Some(c)));
            r.Ok? && r.value.objects == w.objects && r.value.players == w.players &&
            r.value.cells == if ObjectAt(w, c).Some? && w.objects[ObjectAt(w, c).value].netId == id
                             then w.cells - {c} else w.cells
  {
    var m := RemoveMsg(id, Some(c));
    var go := JObj([("id", JInt(id)), ("coordinate", JStr(ShowCoord(c)))]);
    LookupFirst(m.members, "action", 0);
    RemoveRouted(w, cat, m);
    RemoveRead(w, id, c);
    RemoveAtMatches(w, go, c, id);
    var hit := ObjectAt(w, c).Some? && w.objects[ObjectAt(w, c).value].netId == id;
    assert Handle(w, cat, m) == Ok(if hit then w.(cells := w.cells - {c}) else w);
  }

  /** A REMOVE_OBJECT without a player member goes to the corrected handler. */
  lemma RemoveRouted(w: World, cat: Catalog, m: Json)
    requires m.JObj? && Field(m, "action") == Ok(JStr(ActionName(RemoveObject))) && !HasKey(m, "player")
    ensures Handle(w, cat, m) == HandleRemove(w, m)
  {
    NoPlayerMember(w, m);
    Dispatch(w, cat, m, RemoveObject, w, ResolvePlayer(w, m).value.1);
  }

  /** A PLACE_OBJECT followed by the REMOVE_OBJECT of the same object leaves
      the receiver's destination cell empty. */
  lemma PlaceThenRemoveMirrored(w: World, cat: Catalog, id: ObjId, name: string, size: nat, c: Coord)
    ensures Handle(w, cat, Encode(PlaceObjectMsg(id, name, size, c)).value).Ok?
    ensures var w1 := Handle(w, cat, Encode(PlaceObjectMsg(id, name, size, c)).value).value;
            Handle(w1, cat, RemoveMsg(id, Some(c))).Ok? &&
            ObjectAt(Handle(w1, cat, RemoveMsg(id, Some(c))).value, c).None?
  {
    PlaceMirrored(w, cat, id, name, size, c);
    var w1 := Handle(w, cat, Encode(PlaceObjectMsg(id, name, size, c)).value).value;
    RemoveMirrored(w1, cat, id, c);
  }
}
