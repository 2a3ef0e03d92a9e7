/** The Python side of the event relay (network/network_manager.py and
    network/game_network.py): the `GAME_EVENT:<type>:<json>` frame, the
    `P<n>|` sender envelope with its self filter, and the processing of a
    received event. */
module Framing {
  import opened Base
  import opened Text
  import opened World
  import opened Reconcile

  const EventTag := "GAME_EVENT"

  // ---------------------------------------------------------------------
  // The frame

  /** `send_event` and `send_game_event`: the event's type and its JSON
      text behind the tag, separated by colons. */
  function Frame(kind: string, payload: string): (s: string)
    ensures StartsWith(s, EventTag + ":")
  {
    EventTag + ":" + kind + ":" + payload
  }

  /** The three parts of `s.split(':', 2)` when there are three. */
  datatype Event = Event(head: string, kind: string, payload: string)

  /** `_handle_game_event`'s reading of a frame: split at the first two
      colons; fewer than three parts is rejected. The payload keeps any
      further colons. */
  function ParseEvent(s: string): (r: Option<Event>)
    ensures r.Some? ==> s == r.value.head + ":" + r.value.kind + ":" + r.value.payload
    ensures r.Some? ==> ':' !in r.value.head && ':' !in r.value.kind
    ensures r.None? ==> forall i, j :: 0 <= i < j < |s| && s[i] == ':' ==> s[j] != ':'
  {
    var parts := SplitN(s, ':', 2);
    if |parts| < 3 then
      NoSecondColon(s);
      None
    else
      SplitTwice(s, ':');
      Some(Event(parts[0], parts[1], parts[2]))
  }

  /** A split with fewer than three parts: no colon follows a colon. */
  lemma NoSecondColon(s: string)
    requires |SplitN(s, ':', 2)| < 3
    ensures forall i, j :: 0 <= i < j < |s| && s[i] == ':' ==> s[j] != ':'
  {
    match IndexOf(s, ':')
    case None =>
    case Some(i0) =>
      var t := s[i0 + 1..];
      assert SplitN(s, ':', 2) == [s[..i0]] + SplitN(t, ':', 1);
      assert IndexOf(t, ':').None?;
      forall i, j | 0 <= i < j < |s| && s[i] == ':' ensures s[j] != ':' {
        assert s[j] == t[j - i0 - 1];
      }
  }

  /** A frame whose type has no colon reads back as that type and that
      payload, whatever the payload holds. */
  lemma FrameRoundTrip(kind: string, payload: string)
    requires ':' !in kind
    ensures ParseEvent(Frame(kind, payload)) == Some(Event(EventTag, kind, payload))
  {
    var s := Frame(kind, payload);
    var t := kind + ":" + payload;
    assert s == EventTag + [':'] + t;
    IndexOfJoin(EventTag, ':', t);
    assert s[..|EventTag|] == EventTag && s[|EventTag| + 1..] == t;
    assert t == kind + [':'] + payload;
    IndexOfJoin(kind, ':', payload);
    assert t[..|kind|] == kind && t[|kind| + 1..] == payload;
    assert SplitN(t, ':', 1) == [kind, payload];
  }

  // ---------------------------------------------------------------------
  // The envelope

  /** `_process_message`'s split at the first '|' into the sender prefix
      and the content. */
  function SplitSender(m: string): (r: Option<(string, string)>)
    ensures r.Some? ==> m == r.value.0 + "|" + r.value.1 && '|' !in r.value.0
    ensures r.None? <==> '|' !in m
  {
    match IndexOf(m, '|')
    case None => None
    case Some(i) =>
      assert m == m[..i] + "|" + m[i + 1..];
      Some((m[..i], m[i + 1..]))
  }

  /** The prefix a player's own messages carry. */
  function SenderPrefix(n: int): string {
    "P" + IntToString(n)
  }

  /** How a received message ends. Every exception is caught on the way,
      so none escapes. */
  datatype Inbound =
    | Malformed        // no '|'
    | FromSelf         // our own prefix
    | NotAnEvent       // content without the tag
    | BadFrame         // fewer than three colon-separated parts
    | BadJson          // the payload does not decode
    | Processed(accepted: bool)

  /** The receiving side: the player number it filters its own messages
      with, the JSON decoder it applies to payloads, and each entity's
      event id (`Entity.get_id`). */
  datatype Receiver = Receiver(own: int, decode: string -> Option<Json>, idOf: ObjId -> Json)

  /** `_process_message` followed by `_handle_game_event` and
      `process_event`. */
  function ProcessMessage(w: World, rx: Receiver, m: string): (r: (Inbound, World))
    ensures !r.0.Processed? ==> r.1 == w
    ensures r.0 == Malformed <==> '|' !in m
    ensures r.0 == FromSelf <==> SplitSender(m).Some? && SplitSender(m).value.0 == SenderPrefix(rx.own)
    ensures r.0.Processed? ==> StartsWith(SplitSender(m).value.1, EventTag + ":")
    ensures r.1.cells == w.cells && r.1.players == w.players && r.1.outbox == w.outbox
  {
    match SplitSender(m)
    case None => (Malformed, w)
    case Some((prefix, content)) =>
      if prefix == SenderPrefix(rx.own) then (FromSelf, w)
      else if !StartsWith(content, EventTag + ":") then (NotAnEvent, w)
      else
        match ParseEvent(content)
        case None => (BadFrame, w)
        case Some(ev) =>
          match rx.decode(ev.payload)
          case None => (BadJson, w)
          case Some(data) =>
            var out := ProcessEvent(w, rx.idOf, ev.kind, data);
            (Processed(out.0), out.1)
  }

  // ---------------------------------------------------------------------
  // GameEventProcessor

  /** Python's falsiness for the values a decoded payload can hold here; a
      key `.get` does not find reads as None, which is falsy too. */
  predicate Falsy(j: Json) {
    j == JStr("") || j == JInt(0) || j == JObj([])
  }

  /** `x` is an entity of the world whose event id is `eid`. */
  predicate Matches(w: World, idOf: ObjId -> Json, eid: Json, x: ObjId) {
    x in w.objects && idOf(x) == eid
  }

  /** No unit and no building of `p` matches. */
  predicate NoMatch(w: World, idOf: ObjId -> Json, eid: Json, p: Player) {
    (forall k :: 0 <= k < |p.units| ==> !Matches(w, idOf, eid, p.units[k])) &&
    (forall k :: 0 <= k < |p.buildings| ==> !Matches(w, idOf, eid, p.buildings[k]))
  }

  /** The position of the first match in `ids`. */
  function FirstMatch(w: World, idOf: ObjId -> Json, eid: Json, ids: seq<ObjId>): (r: Option<nat>)
    ensures r.Some? ==> r.value < |ids| && Matches(w, idOf, eid, ids[r.value])
    ensures r.Some? ==> forall k :: 0 <= k < r.value ==> !Matches(w, idOf, eid, ids[k])
    ensures r.None? ==> forall k :: 0 <= k < |ids| ==> !Matches(w, idOf, eid, ids[k])
  {
    if |ids| == 0 then None
    else if Matches(w, idOf, eid, ids[0]) then Some(0)
    else
      match FirstMatch(w, idOf, eid, ids[1..])
      case None => None
      case Some(k) => Some(k + 1)
  }

  /** Where `_find_entity` found its entity: which player, whether among
      the units, and the position in that list. */
  datatype Found = Found(player: nat, inUnits: bool, pos: nat)

  /** A player's units or its buildings. */
  function ListOf(p: Player, inUnits: bool): seq<ObjId> {
    if inUnits then p.units else p.buildings
  }

  function FoundId(ps: seq<Player>, f: Found): ObjId
    requires f.player < |ps| && f.pos < |ListOf(ps[f.player], f.inUnits)|
  {
    ListOf(ps[f.player], f.inUnits)[f.pos]
  }

  /** `_find_entity`: players in order, each one's units before its
      buildings; the first match wins. */
  function FindEntity(w: World, idOf: ObjId -> Json, eid: Json, ps: seq<Player>): (r: Option<Found>)
    ensures r.Some? ==>
              var f := r.value;
              f.player < |ps| &&
              f.pos < |ListOf(ps[f.player], f.inUnits)| &&
              Matches(w, idOf, eid, FoundId(ps, f))
    ensures r.Some? ==> forall j :: 0 <= j < r.value.player ==> NoMatch(w, idOf, eid, ps[j])
    ensures r.Some? && !r.value.inUnits ==>
              forall k :: 0 <= k < |ps[r.value.player].units| ==> !Matches(w, idOf, eid, ps[r.value.player].units[k])
    ensures r.Some? ==>
              forall k :: 0 <= k < r.value.pos ==> !Matches(w, idOf, eid, ListOf(ps[r.value.player], r.value.inUnits)[k])
    ensures r.None? ==> forall j :: 0 <= j < |ps| ==> NoMatch(w, idOf, eid, ps[j])
  {
    if |ps| == 0 then None
    else
      match FirstMatch(w, idOf, eid, ps[0].units)
      case Some(k) => Some(Found(0, true, k))
      case None =>
        match FirstMatch(w, idOf, eid, ps[0].buildings)
        case Some(k) => Some(Found(0, false, k))
        case None =>
          match FindEntity(w, idOf, eid, ps[1..])
          case None => None
          case Some(f) =>
            assert ps[1..][f.player] == ps[f.player + 1];
            assert forall j :: 1 <= j <= f.player ==> ps[j] == ps[1..][j - 1];
            Some(f.(player := f.player + 1))
  }

  /** The coordinate a MOVE event carries: integer `x` and `y` members. */
  function PositionOf(np: Json): (r: Option<Coord>)
    ensures r.Some? ==> Field(np, "x") == Ok(JInt(r.value.x)) && Field(np, "y") == Ok(JInt(r.value.y))
    ensures r.None? ==> !(Field(np, "x").Ok? && Field(np, "x").value.JInt? &&
                          Field(np, "y").Ok? && Field(np, "y").value.JInt?)
  {
    match (Field(np, "x"), Field(np, "y"))
    case (Ok(JInt(x)), Ok(JInt(y))) => Some(Coord(x, y))
    case _ => None
  }

  /** `_process_move_event`: find the entity by the event's id and set its
      coordinate directly, without touching the grid or sending anything. */
  function ProcessMove(w: World, idOf: ObjId -> Json, data: Json): (r: (bool, World))
    ensures !r.0 ==> r.1 == w
    ensures r.1.cells == w.cells && r.1.players == w.players && r.1.outbox == w.outbox && r.1.nextId == w.nextId
    ensures r.1.objects.Keys == w.objects.Keys
    ensures r.0 ==> data.JObj? && HasKey(data, "entity_id") && !Falsy(Field(data, "entity_id").value) &&
                    HasKey(data, "new_position")
    ensures r.0 ==>
              var f := FindEntity(w, idOf, Field(data, "entity_id").value, w.players);
              f.Some? &&
              var e := FoundId(w.players, f.value);
              r.1.objects == w.objects[e := w.objects[e].(coord := PositionOf(Field(data, "new_position").value))]
  {
    if !data.JObj? then (false, w)
    else
      var eid := FieldOr(data, "entity_id", JStr("")).value;
      var np := FieldOr(data, "new_position", JStr("")).value;
      if Falsy(eid) || Falsy(np) then (false, w)
      else
        match FindEntity(w, idOf, eid, w.players)
        case None => (false, w)
        case Some(f) =>
          var e := FoundId(w.players, f);
          match PositionOf(np)
          case None => (false, w)
          case Some(c) => (true, UpdateObject(w, e, w.objects[e].(coord := Some(c))))
  }

  /** `process_event`: MOVE is processed; BUILD and ATTACK are not yet
      implemented and, like every other type, are refused. */
  function ProcessEvent(w: World, idOf: ObjId -> Json, kind: string, data: Json): (r: (bool, World))
    ensures kind != "MOVE" ==> r == (false, w)
    ensures !r.0 ==> r.1 == w
    ensures r.1.cells == w.cells && r.1.players == w.players && r.1.outbox == w.outbox
  {
    if kind == "MOVE" then ProcessMove(w, idOf, data)
    else if kind == "BUILD" then (false, w)
    else if kind == "ATTACK" then (false, w)
    else (false, w)
  }

  // ---------------------------------------------------------------------
  // Properties

  /** The MOVE event `Entity.move_to` sends, reduced to the members the
      receiver reads. */
  function MoveEvent(eid: Json, c: Coord): Json {
    JObj([("entity_id", eid), ("new_position", JObj([("x", JInt(c.x)), ("y", JInt(c.y))]))])
  }

  /** A MOVE naming a known entity by a truthy id moves the first entity
      with that id, and only its coordinate changes. */
  lemma MoveApplied(w: World, idOf: ObjId -> Json, eid: Json, c: Coord)
    requires !Falsy(eid) && FindEntity(w, idOf, eid, w.players).Some?
    ensures var e := FoundId(w.players, FindEntity(w, idOf, eid, w.players).value);
            ProcessEvent(w, idOf, "MOVE", MoveEvent(eid, c)) ==
              (true, w.(objects := w.objects[e := w.objects[e].(coord := Some(c))]))
  {
    var data := MoveEvent(eid, c);
    var np := JObj([("x", JInt(c.x)), ("y", JInt(c.y))]);
    MoveEventFields(eid, c);
    var e := FoundId(w.players, FindEntity(w, idOf, eid, w.players).value);
    assert ProcessMove(w, idOf, data) == (true, UpdateObject(w, e, w.objects[e].(coord := Some(c))));
  }

  /** The members the receiver reads from a MOVE event. */
  lemma MoveEventFields(eid: Json, c: Coord)
    ensures var np := JObj([("x", JInt(c.x)), ("y", JInt(c.y))]);
            HasKey(MoveEvent(eid, c), "entity_id") && HasKey(MoveEvent(eid, c), "new_position") &&
            FieldOr(MoveEvent(eid, c), "entity_id", JStr("")) == Ok(eid) &&
            FieldOr(MoveEvent(eid, c), "new_position", JStr("")) == Ok(np) &&
            !Falsy(np) && PositionOf(np) == Some(c)
  {
    var data := MoveEvent(eid, c);
    var np := JObj([("x", JInt(c.x)), ("y", JInt(c.y))]);
    LookupFirst(data.members, "entity_id", 0);
    LookupFirst(data.members, "new_position", 1);
    LookupFirst(np.members, "x", 0);
    LookupFirst(np.members, "y", 1);
  }

  /** A MOVE whose id matches no unit or building of any player is refused
      and changes nothing. */
  lemma UnknownEntityRefused(w: World, idOf: ObjId -> Json, eid: Json, c: Coord)
    requires forall j :: 0 <= j < |w.players| ==> NoMatch(w, idOf, eid, w.players[j])
    ensures ProcessEvent(w, idOf, "MOVE", MoveEvent(eid, c)) == (false, w)
  {
    if FindEntity(w, idOf, eid, w.players).Some? {
      var f := FindEntity(w, idOf, eid, w.players).value;
      assert NoMatch(w, idOf, eid, w.players[f.player]);
    }
  }

  /** An id of 0 or "" is falsy and the event is refused, even when an
      entity carries that id. */
  lemma FalsyIdRefused(w: World, idOf: ObjId -> Json, eid: Json, c: Coord)
    requires Falsy(eid)
    ensures ProcessEvent(w, idOf, "MOVE", MoveEvent(eid, c)) == (false, w)
  {
    LookupFirst(MoveEvent(eid, c).members, "entity_id", 0);
  }

  /** A MOVE without an `entity_id` or `new_position` member is refused. */
  lemma MissingMemberRefused(w: World, idOf: ObjId -> Json, data: Json)
    requires data.JObj? && (!HasKey(data, "entity_id") || !HasKey(data, "new_position"))
    ensures ProcessEvent(w, idOf, "MOVE", data) == (false, w)
  {
  }

  /** A player's own messages come back from the relay and are dropped. */
  lemma OwnMessagesIgnored(w: World, rx: Receiver, content: string)
    ensures ProcessMessage(w, rx, SenderPrefix(rx.own) + "|" + content) == (FromSelf, w)
  {
    var m := SenderPrefix(rx.own) + "|" + content;
    IntStringChars(rx.own);
    assert '|' !in SenderPrefix(rx.own);
    assert m == SenderPrefix(rx.own) + ['|'] + content;
    IndexOfJoin(SenderPrefix(rx.own), '|', content);
    assert m[..|SenderPrefix(rx.own)|] == SenderPrefix(rx.own);
  }

  /** Distinct player numbers give distinct prefixes. */
  lemma PrefixesDiffer(a: int, b: int)
    requires a != b
    ensures SenderPrefix(a) != SenderPrefix(b)
  {
    IntStringRoundTrip(a);
    IntStringRoundTrip(b);
    assert IntToString(a) == SenderPrefix(a)[1..];
    assert IntToString(b) == SenderPrefix(b)[1..];
  }

  /** End to end: an event another player frames and tags reaches the
      processor with the type and the decoded payload it was sent with. */
  lemma PeerEventProcessed(w: World, rx: Receiver, peer: int, kind: string, payload: string, data: Json)
    requires peer != rx.own && ':' !in kind && rx.decode(payload) == Some(data)
    ensures var out := ProcessEvent(w, rx.idOf, kind, data);
            ProcessMessage(w, rx, SenderPrefix(peer) + "|" + Frame(kind, payload)) == (Processed(out.0), out.1)
  {
    var content := Frame(kind, payload);
    var m := SenderPrefix(peer) + "|" + content;
    IntStringChars(peer);
    assert '|' !in SenderPrefix(peer);
    assert m == SenderPrefix(peer) + ['|'] + content;
    IndexOfJoin(SenderPrefix(peer), '|', content);
    assert m[..|SenderPrefix(peer)|] == SenderPrefix(peer) && m[|SenderPrefix(peer)| + 1..] == content;
    PrefixesDiffer(peer, rx.own);
    FrameRoundTrip(kind, payload);
  }
}
