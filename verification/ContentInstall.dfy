// Installing the bundled world into a live database (internal/game/content.go).
module ContentInstall {
  import opened Wrappers
  import opened WorldPlan
  import opened ScriptStore

  // Exits of a stored room: operators may add exits under names of their own.
  datatype Exit = Compass(direction: Direction) | Custom(name: string)

  type Exits = map<Exit, Option<nat>>

  // `exits` is a nullable JSON column whose members may be null themselves.
  datatype RoomRow = RoomRow(
    name: string, description: string, short: Option<string>, kind: string,
    exits: Option<Exits>, script: Option<nat>, created: int)

  datatype MonsterRow = MonsterRow(stats: Monster, room: nat, loot: Option<nat>)

  datatype Content = Content(
    rooms: map<nat, RoomRow>,
    keys: map<string, nat>,          // world_content_rooms: content key to room, both unique
    monsters: map<string, MonsterRow>,
    scripts: Scripts)

  // The bundled world. Sources come in any order, each key once.
  datatype Pack = Pack(rooms: seq<Room>, monsters: seq<Monster>, sources: seq<(string, string)>)

  // Permanent script IDs, IDs for rooms to be created, the items a monster may drop
  // and the transaction time.
  datatype Mint = Mint(script: string -> nat, room: string -> nat, item: string -> Option<nat>, now: int)

  const LEGACY := {"square", "gate", "market", "inn", "docks"}

  // ---------------------------------------------------------------- scripts

  function WithScripts(db: Scripts, mint: Mint, sources: seq<(string, string)>): Scripts {
    if sources == [] then db
    else
      var (key, source) := sources[|sources| - 1];
      Bundled(WithScripts(db, mint, sources[..|sources| - 1]), mint.script(key), "world_" + key, source)
  }

  // ---------------------------------------------------------------- rooms

  datatype Placing = Placing(rooms: map<nat, RoomRow>, keys: map<string, nat>, ids: map<string, nat>, added: set<string>)

  predicate Older(rooms: map<nat, RoomRow>, i: nat, j: nat)
    requires i in rooms && j in rooms
  {
    rooms[i].created < rooms[j].created || (rooms[i].created == rooms[j].created && i <= j)
  }

  // The row adoption selects: the oldest of that name.
  predicate IsOldest(rooms: map<nat, RoomRow>, name: string, i: nat) {
    i in rooms && rooms[i].name == name && forall j :: j in rooms && rooms[j].name == name ==> Older(rooms, i, j)
  }

  predicate Adopts(rooms: map<nat, RoomRow>, room: Room) {
    room.key in LEGACY && exists i :: i in rooms && rooms[i].name == room.name
  }

  ghost function Oldest(rooms: map<nat, RoomRow>, name: string): (i: nat)
    requires exists i :: i in rooms && rooms[i].name == name
    ensures IsOldest(rooms, name, i)
  {
    OldestExists(rooms, name);
    var i :| IsOldest(rooms, name, i);
    i
  }

  lemma {:induction false} OldestExists(rooms: map<nat, RoomRow>, name: string)
    requires exists i :: i in rooms && rooms[i].name == name
    ensures exists i :: IsOldest(rooms, name, i)
    decreases |rooms.Keys|
  {
    var i :| i in rooms && rooms[i].name == name;
    var rest := rooms - {i};
    assert rest.Keys == rooms.Keys - {i};
    if exists j :: j in rest && rest[j].name == name {
      OldestExists(rest, name);
      var j :| IsOldest(rest, name, j);
      var k := if Older(rooms, i, j) then i else j;
      forall n | n in rooms && rooms[n].name == name
        ensures Older(rooms, k, n)
      {
        assert n == i || (n in rest && Older(rest, j, n));
      }
      assert IsOldest(rooms, name, k);
    } else {
      assert forall n :: n in rooms && n != i ==> n in rest;
      assert IsOldest(rooms, name, i);
    }
  }

  function NewRow(mint: Mint, room: Room): RoomRow {
    RoomRow(room.name, room.description, Some(room.name), room.kind, Some(map[]), None, mint.now)
  }

  ghost function Place(mint: Mint, p: Placing, room: Room): Option<Placing> {
    if room.key in p.keys then Some(p.(ids := p.ids[room.key := p.keys[room.key]]))
    else
      var adopts := Adopts(p.rooms, room);
      var id := if adopts then Oldest(p.rooms, room.name) else mint.room(room.key);
      if exists k :: k in p.keys && p.keys[k] == id then None
      else
        Some(Placing(if adopts then p.rooms else p.rooms[id := NewRow(mint, room)],
                     p.keys[room.key := id], p.ids[room.key := id], p.added + {room.key}))
  }

  ghost function PlaceAll(mint: Mint, db: Content, rooms: seq<Room>): Option<Placing> {
    if rooms == [] then Some(Placing(db.rooms, db.keys, map[], {}))
    else
      var p := PlaceAll(mint, db, rooms[..|rooms| - 1]);
      if p.None? then None else Place(mint, p.value, rooms[|rooms| - 1])
  }

  // ---------------------------------------------------------------- exits

  // The exits to write in a room: all of a new room, and those that lead to new rooms.
  function Wanted(p: Placing, room: Room): Exits
    requires forall d :: d in room.exits ==> room.exits[d] in p.ids
  {
    map e | e in (set d | d in room.exits :: Compass(d)) && (room.key in p.added || room.exits[e.direction] in p.added)
      :: Some(p.ids[room.exits[e.direction]])
  }

  // An exit to be written is occupied by another one.
  predicate Clashes(current: Exits, wanted: Exits) {
    exists e :: e in wanted && e in current && current[e].Some? && current[e] != wanted[e]
  }

  // A room installed earlier whose exits cannot be read or are occupied.
  predicate Blocked(p: Placing, room: Room, row: RoomRow)
    requires forall d :: d in room.exits ==> room.exits[d] in p.ids
  {
    && room.key !in p.added && Wanted(p, room) != map[]
    && (row.exits.None? || Clashes(row.exits.value, Wanted(p, room)))
  }

  function Linked(p: Placing, mint: Mint, room: Room, row: RoomRow): RoomRow
    requires forall d :: d in room.exits ==> room.exits[d] in p.ids
  {
    var wanted := Wanted(p, room);
    if room.key !in p.added then
      if wanted == map[] then row else row.(exits := Some(row.exits.GetOr(map[]) + wanted))
    else
      row.(exits := Some(row.exits.GetOr(map[]) + wanted),
           description := room.description,
           short := if row.short.Some? then row.short else Some(row.name),
           script := if row.script.Some? || room.script == "" then row.script else Some(mint.script(room.script)))
  }

  ghost predicate Known(p: Placing, rooms: seq<Room>) {
    forall i :: 0 <= i < |rooms| ==>
      && rooms[i].key in p.ids && p.ids[rooms[i].key] in p.rooms
      && forall d :: d in rooms[i].exits ==> rooms[i].exits[d] in p.ids
  }

  // Room by room; the first one that is blocked stops the installation.
  ghost function LinkAll(p: Placing, mint: Mint, rooms: seq<Room>): (r: Option<map<nat, RoomRow>>)
    requires Known(p, rooms)
    ensures r.Some? ==> r.value.Keys == p.rooms.Keys
  {
    if rooms == [] then Some(p.rooms)
    else
      var last := rooms[|rooms| - 1];
      var before := LinkAll(p, mint, rooms[..|rooms| - 1]);
      if before.None? || Blocked(p, last, before.value[p.ids[last.key]]) then None
      else
        var id := p.ids[last.key];
        Some(before.value[id := Linked(p, mint, last, before.value[id])])
  }

  // ---------------------------------------------------------------- monsters

  function WithMonsters(db: map<string, MonsterRow>, mint: Mint, ids: map<string, nat>, monsters: seq<Monster>): map<string, MonsterRow>
    requires forall m :: m in monsters ==> m.room in ids
  {
    if monsters == [] then db
    else
      var before := WithMonsters(db, mint, ids, monsters[..|monsters| - 1]);
      var m := monsters[|monsters| - 1];
      if m.key in before then before
      else before[m.key := MonsterRow(m, ids[m.room], if m.loot == "" then None else mint.item(m.loot))]
  }

  // ---------------------------------------------------------------- the installation

  // What the world builder guarantees of a pack: distinct keys, every exit with its
  // return, monsters in rooms of the pack, every attached script bundled.
  ghost predicate PackOk(pack: Pack) {
    && (forall i, j :: 0 <= i < j < |pack.rooms| ==> pack.rooms[i].key != pack.rooms[j].key)
    && (forall i, d :: 0 <= i < |pack.rooms| && d in pack.rooms[i].exits ==> Returns(pack.rooms, i, d))
    && (forall m :: m in pack.monsters ==> HasRoom(pack.rooms, m.room))
  }

  // Content keys name distinct rooms that exist.
  ghost predicate KeysOk(rooms: map<nat, RoomRow>, keys: map<string, nat>) {
    && (forall k :: k in keys ==> keys[k] in rooms)
    && (forall j, k :: j in keys && k in keys && j != k ==> keys[j] != keys[k])
  }

  // IDs minted for rooms to be created are unused and distinct.
  ghost predicate MintOk(mint: Mint, db: Content, rooms: seq<Room>) {
    && (forall i :: 0 <= i < |rooms| ==> mint.room(rooms[i].key) !in db.rooms)
    && (forall i, j :: 0 <= i < j < |rooms| ==> mint.room(rooms[i].key) != mint.room(rooms[j].key))
  }

  // Which keys have rooms, and which of them are new.
  ghost predicate PlacedIds(p: Placing, db: Content, rooms: seq<Room>) {
    && (forall k :: k in db.keys ==> k in p.keys && p.keys[k] == db.keys[k])
    && (forall k :: k in p.keys <==> k in db.keys || k in p.added)
    && (forall k :: k in p.ids <==> HasRoom(rooms, k))
    && (forall k :: k in p.ids ==> k in p.keys && p.ids[k] == p.keys[k])
    && (forall k :: k in p.added <==> k in p.ids && k !in db.keys)
  }

  // Rooms there were stay as they are; every other room was minted for a new key.
  ghost predicate PlacedRows(p: Placing, mint: Mint, db: Content) {
    && KeysOk(p.rooms, p.keys)
    && (forall i :: i in db.rooms ==> i in p.rooms && p.rooms[i] == db.rooms[i])
    && (forall i :: i in p.rooms && i !in db.rooms ==> MintedFor(p, mint, i))
  }

  ghost predicate MintedFor(p: Placing, mint: Mint, i: nat) {
    exists k :: k in p.added && k in p.ids && i == mint.room(k) && p.ids[k] == i
  }

  ghost predicate Placed(p: Placing, mint: Mint, db: Content, rooms: seq<Room>) {
    PlacedIds(p, db, rooms) && PlacedRows(p, mint, db)
  }

  lemma HasRoomNext(rooms: seq<Room>, room: Room)
    ensures forall k :: HasRoom(rooms + [room], k) <==> HasRoom(rooms, k) || k == room.key
  {
    assert (rooms + [room])[|rooms|] == room;
    assert forall i :: 0 <= i < |rooms| ==> (rooms + [room])[i] == rooms[i];
  }

  lemma IdsNext(p: Placing, q: Placing, db: Content, rooms: seq<Room>, room: Room, id: nat)
    requires PlacedIds(p, db, rooms) && !HasRoom(rooms, room.key) && room.key !in p.keys
    requires q.keys == p.keys[room.key := id] && q.ids == p.ids[room.key := id] && q.added == p.added + {room.key}
    ensures PlacedIds(q, db, rooms + [room])
  {
    HasRoomNext(rooms, room);
    hide HasRoom;
  }

  lemma MintUnused(p: Placing, mint: Mint, db: Content, rooms: seq<Room>, room: Room)
    requires Placed(p, mint, db, rooms) && MintOk(mint, db, rooms + [room]) && room.key !in p.keys
    ensures mint.room(room.key) !in p.rooms && mint.room(room.key) !in db.rooms
  {
    var id := mint.room(room.key);
    assert (rooms + [room])[|rooms|] == room;
    forall k | k in p.added && k in p.ids
      ensures mint.room(k) != id
    {
      assert HasRoom(rooms, k);
      var i :| 0 <= i < |rooms| && rooms[i].key == k;
      assert (rooms + [room])[i] == rooms[i];
    }
  }

  lemma StillMinted(p: Placing, q: Placing, mint: Mint, key: string, id: nat, i: nat)
    requires MintedFor(p, mint, i) && key !in p.ids && q.ids == p.ids[key := id] && q.added == p.added + {key}
    ensures MintedFor(q, mint, i)
  {
    var k :| k in p.added && k in p.ids && i == mint.room(k) && p.ids[k] == i;
    assert k in q.added && k in q.ids && q.ids[k] == i;
  }

  lemma RowsNext(p: Placing, q: Placing, mint: Mint, db: Content, key: string, id: nat, row: RoomRow)
    requires PlacedRows(p, mint, db) && key !in p.keys && key !in p.ids && forall k :: k in p.keys ==> p.keys[k] != id
    requires q.keys == p.keys[key := id] && q.ids == p.ids[key := id] && q.added == p.added + {key}
    requires if id in p.rooms then q.rooms == p.rooms
             else id !in db.rooms && id == mint.room(key) && q.rooms == p.rooms[id := row]
    ensures PlacedRows(q, mint, db)
  {
    forall i | i in q.rooms && i !in db.rooms
      ensures MintedFor(q, mint, i)
    {
      if i in p.rooms {
        StillMinted(p, q, mint, key, id, i);
      } else {
        assert key in q.added && q.ids[key] == id;
      }
    }
    hide MintedFor;
  }

  lemma PlaceKeeps(p: Placing, mint: Mint, db: Content, rooms: seq<Room>, room: Room)
    requires Placed(p, mint, db, rooms) && MintOk(mint, db, rooms + [room]) && !HasRoom(rooms, room.key)
    requires Place(mint, p, room).Some?
    ensures Placed(Place(mint, p, room).value, mint, db, rooms + [room])
  {
    var q := Place(mint, p, room).value;
    hide HasRoom, IsOldest, MintOk;
    if room.key in p.keys {
      SameIds(p, q, db, rooms, room);
      SameRows(p, q, mint, db, room.key);
    } else {
      var id := if Adopts(p.rooms, room) then Oldest(p.rooms, room.name) else mint.room(room.key);
      hide PlacedRows, PlacedIds;
      MintUnused(p, mint, db, rooms, room);
      NewIds(p, db, rooms, room.key);
      IdsNext(p, q, db, rooms, room, id);
      hide Adopts;
      RowsNext(p, q, mint, db, room.key, id, NewRow(mint, room));
    }
  }

  lemma NewIds(p: Placing, db: Content, rooms: seq<Room>, key: string)
    requires PlacedIds(p, db, rooms)
    ensures key !in p.keys ==> key !in p.ids
    ensures forall k :: k in p.ids ==> k in p.keys && p.ids[k] == p.keys[k]
  {
  }

  lemma SameIds(p: Placing, q: Placing, db: Content, rooms: seq<Room>, room: Room)
    requires PlacedIds(p, db, rooms) && room.key in p.keys && q == p.(ids := p.ids[room.key := p.keys[room.key]])
    requires !HasRoom(rooms, room.key)
    ensures PlacedIds(q, db, rooms + [room])
  {
    HasRoomNext(rooms, room);
    hide HasRoom;
  }

  lemma SameRows(p: Placing, q: Placing, mint: Mint, db: Content, key: string)
    requires PlacedRows(p, mint, db) && key in p.keys && q == p.(ids := p.ids[key := p.keys[key]])
    requires forall k :: k in p.ids ==> k in p.keys && p.ids[k] == p.keys[k]
    ensures PlacedRows(q, mint, db)
  {
    forall i | MintedFor(p, mint, i)
      ensures MintedFor(q, mint, i)
    {
      var k :| k in p.added && k in p.ids && i == mint.room(k) && p.ids[k] == i;
      assert q.ids[k] == i;
    }
    hide MintedFor;
  }

  lemma NothingPlaced(mint: Mint, db: Content)
    requires KeysOk(db.rooms, db.keys)
    ensures Placed(Placing(db.rooms, db.keys, map[], {}), mint, db, [])
  {
  }

  lemma MintPrefix(mint: Mint, db: Content, rooms: seq<Room>, n: nat)
    requires n <= |rooms| && MintOk(mint, db, rooms)
    ensures MintOk(mint, db, rooms[..n])
  {
  }

  lemma {:induction false} PlaceAllKeeps(mint: Mint, db: Content, rooms: seq<Room>)
    requires KeysOk(db.rooms, db.keys) && MintOk(mint, db, rooms)
    requires forall i, j :: 0 <= i < j < |rooms| ==> rooms[i].key != rooms[j].key
    ensures PlaceAll(mint, db, rooms).Some? ==> Placed(PlaceAll(mint, db, rooms).value, mint, db, rooms)
  {
    hide Placed, Place, MintOk;
    var n := |rooms| - 1;
    if rooms == [] {
      NothingPlaced(mint, db);
    } else {
      MintPrefix(mint, db, rooms, n);
      PlaceAllKeeps(mint, db, rooms[..n]);
      if PlaceAll(mint, db, rooms).Some? {
        assert rooms == rooms[..n] + [rooms[n]];
        PlaceKeeps(PlaceAll(mint, db, rooms[..n]).value, mint, db, rooms[..n], rooms[n]);
      }
    }
  }

  lemma PlacedKnown(p: Placing, mint: Mint, db: Content, pack: Pack)
    requires Placed(p, mint, db, pack.rooms) && PackOk(pack)
    ensures Known(p, pack.rooms) && forall m :: m in pack.monsters ==> m.room in p.ids
  {
    forall i, d | 0 <= i < |pack.rooms| && d in pack.rooms[i].exits
      ensures pack.rooms[i].exits[d] in p.ids
    {
      assert Returns(pack.rooms, i, d);
      assert HasRoom(pack.rooms, pack.rooms[i].exits[d]);
    }
    forall i | 0 <= i < |pack.rooms|
      ensures pack.rooms[i].key in p.ids && p.ids[pack.rooms[i].key] in p.rooms
    {
      assert HasRoom(pack.rooms, pack.rooms[i].key);
      assert p.ids[pack.rooms[i].key] == p.keys[pack.rooms[i].key];
    }
  }

  // The whole installation, one transaction: None leaves the database as it was.
  ghost function Installation(mint: Mint, db: Content, pack: Pack): Option<Content>
    requires PackOk(pack) && KeysOk(db.rooms, db.keys) && MintOk(mint, db, pack.rooms)
  {
    var placed := PlaceAll(mint, db, pack.rooms);
    if placed.None? then None
    else
      var p := placed.value;
      PlaceAllKeeps(mint, db, pack.rooms);
      PlacedKnown(p, mint, db, pack);
      var linked := LinkAll(p, mint, pack.rooms);
      if linked.None? then None
      else Some(Content(linked.value, p.keys, WithMonsters(db.monsters, mint, p.ids, pack.monsters),
                        WithScripts(db.scripts, mint, pack.sources)))
  }
}
