// `installWorldContent` as it runs (internal/game/content.go): it fills its maps room
// by room and writes exits row by row. Proved against ContentInstall.Installation.
module ContentInstaller {
  import opened Wrappers
  import opened WorldPlan
  import opened ScriptStore
  import opened ContentInstall
  import opened ContentGrowth

  class Installer {
    var rooms: map<nat, RoomRow>
    var keys: map<string, nat>
    var monsters: map<string, MonsterRow>
    var scripts: Scripts

    constructor (db: Content)
      ensures View() == db
    {
      rooms, keys, monsters, scripts := db.rooms, db.keys, db.monsters, db.scripts;
    }

    function View(): Content
      reads this
    {
      Content(rooms, keys, monsters, scripts)
    }

    // One transaction: on an error nothing is kept.
    method Install(mint: Mint, pack: Pack) returns (ok: bool)
      requires PackOk(pack) && KeysOk(rooms, keys) && MintOk(mint, View(), pack.rooms)
      modifies this
      ensures ok <==> Installation(mint, old(View()), pack).Some?
      ensures View() == if ok then Installation(mint, old(View()), pack).value else old(View())
    {
      hide PlaceAll, LinkAll, WithMonsters, WithScripts, Placed, MintOk;
      var installed := InstallScripts(mint, pack.sources);
      var placed := PlaceRooms(mint, pack.rooms);
      if placed.None? {
        return false;
      }
      var p := placed.value;
      PlaceAllKeeps(mint, View(), pack.rooms);
      PlacedKnown(p, mint, View(), pack);
      var linked := LinkRooms(p, mint, pack.rooms);
      if linked.None? {
        return false;
      }
      var bred := InstallMonsters(mint, p.ids, pack.monsters);
      rooms, keys, monsters, scripts := linked.value, p.keys, bred, installed;
      return true;
    }

    method InstallScripts(mint: Mint, sources: seq<(string, string)>) returns (db: Scripts)
      ensures db == WithScripts(scripts, mint, sources)
    {
      db := scripts;
      var i := 0;
      while i < |sources|
        invariant 0 <= i <= |sources| && db == WithScripts(scripts, mint, sources[..i])
      {
        assert sources[..i + 1][..i] == sources[..i];
        var (key, source) := sources[i];
        var id := mint.script(key);
        if id !in db.scripts {
          db := Scripts(db.scripts[id := Script("world_" + key, OnRoom, source, 1, true, Some(source), Some(1), None)],
                        db.audit + [Entry(id, None, Action.Install, 1, Some(source))], db.attached);
        }
        i := i + 1;
      }
      assert sources[..i] == sources;
    }

    static lemma OldestUnique(rooms: map<nat, RoomRow>, name: string, i: nat, j: nat)
      requires IsOldest(rooms, name, i) && IsOldest(rooms, name, j)
      ensures i == j
    {
      assert Older(rooms, i, j) && Older(rooms, j, i);
    }

    static method FindOldest(rooms: map<nat, RoomRow>, name: string) returns (found: Option<nat>)
      ensures found.Some? <==> exists i :: i in rooms && rooms[i].name == name
      ensures found.Some? ==> found.value == Oldest(rooms, name)
    {
      found := None;
      var todo := rooms.Keys;
      while todo != {}
        invariant todo <= rooms.Keys
        invariant found.None? ==> forall i :: i in rooms && i !in todo ==> rooms[i].name != name
        invariant found.Some? ==> found.value in rooms && rooms[found.value].name == name
        invariant found.Some? ==>
                    forall i :: i in rooms && i !in todo && rooms[i].name == name ==> Older(rooms, found.value, i)
        decreases todo
      {
        var i :| i in todo;
        todo := todo - {i};
        if rooms[i].name == name && (found.None? || Older(rooms, i, found.value)) {
          found := Some(i);
        }
      }
      if found.Some? {
        assert IsOldest(rooms, name, found.value);
        OldestUnique(rooms, name, found.value, Oldest(rooms, name));
      }
    }

    method PlaceRooms(mint: Mint, list: seq<Room>) returns (r: Option<Placing>)
      ensures r == PlaceAll(mint, View(), list)
    {
      hide Place;
      var p := Placing(rooms, keys, map[], {});
      var i := 0;
      while i < |list|
        invariant 0 <= i <= |list| && Some(p) == PlaceAll(mint, View(), list[..i])
      {
        assert list[..i + 1][..i] == list[..i];
        var next := PlaceRoom(mint, p, list[i]);
        if next.None? {
          NotPlaced(mint, View(), list, i + 1);
          return None;
        }
        p := next.value;
        i := i + 1;
      }
      assert list[..i] == list;
      return Some(p);
    }

    static lemma {:induction false} NotPlaced(mint: Mint, db: Content, list: seq<Room>, n: nat)
      requires n <= |list| && PlaceAll(mint, db, list[..n]).None?
      ensures PlaceAll(mint, db, list).None?
      decreases |list|
    {
      if n == |list| {
        assert list[..n] == list;
      } else {
        assert list[..|list| - 1][..n] == list[..n];
        NotPlaced(mint, db, list[..|list| - 1], n);
      }
    }

    static method PlaceRoom(mint: Mint, p: Placing, room: Room) returns (r: Option<Placing>)
      ensures r == Place(mint, p, room)
    {
      if room.key in p.keys {
        return Some(p.(ids := p.ids[room.key := p.keys[room.key]]));
      }
      var q := p.(added := p.added + {room.key});
      var found := None;
      if room.key in LEGACY {
        found := FindOldest(p.rooms, room.name);
      }
      var id;
      if found.Some? {
        id := found.value;
      } else {
        id := mint.room(room.key);
        q := q.(rooms := q.rooms[id := NewRow(mint, room)]);
      }
      if id in p.keys.Values {
        return None;
      }
      assert forall k :: k in p.keys ==> p.keys[k] in p.keys.Values;
      return Some(q.(keys := q.keys[room.key := id], ids := q.ids[room.key := id]));
    }

    static method LinkRooms(p: Placing, mint: Mint, list: seq<Room>) returns (r: Option<map<nat, RoomRow>>)
      requires Known(p, list)
      ensures r == LinkAll(p, mint, list)
    {
      hide Blocked, Linked, Wanted, Clashes;
      var rows := p.rooms;
      var i := 0;
      while i < |list|
        invariant 0 <= i <= |list| && Some(rows) == LinkAll(p, mint, list[..i])
      {
        assert list[..i + 1][..i] == list[..i];
        var id := p.ids[list[i].key];
        var row := LinkRoom(p, mint, list[i], rows[id]);
        if row.None? {
          NotLinked(p, mint, list, i + 1);
          return None;
        }
        rows := rows[id := row.value];
        i := i + 1;
      }
      assert list[..i] == list;
      return Some(rows);
    }

    static lemma {:induction false} NotLinked(p: Placing, mint: Mint, list: seq<Room>, n: nat)
      requires n <= |list| && Known(p, list) && LinkAll(p, mint, list[..n]).None?
      ensures LinkAll(p, mint, list).None?
      decreases |list|
    {
      hide Blocked, Linked;
      if n == |list| {
        assert list[..n] == list;
      } else {
        assert list[..|list| - 1][..n] == list[..n];
        NotLinked(p, mint, list[..|list| - 1], n);
      }
    }

    static method ExitsToWrite(p: Placing, room: Room) returns (exits: Exits)
      requires forall d :: d in room.exits ==> room.exits[d] in p.ids
      ensures exits == Wanted(p, room)
    {
      exits := map[];
      var todo := room.exits.Keys;
      while todo != {}
        invariant todo <= room.exits.Keys
        invariant forall e :: e in exits <==>
                    && e.Compass? && e.direction in room.exits && e.direction !in todo
                    && (room.key in p.added || room.exits[e.direction] in p.added)
        invariant forall e :: e in exits ==> exits[e] == Some(p.ids[room.exits[e.direction]])
        decreases todo
      {
        var d :| d in todo;
        todo := todo - {d};
        if room.key in p.added || room.exits[d] in p.added {
          exits := exits[Compass(d) := Some(p.ids[room.exits[d]])];
        }
      }
      assert exits.Keys == Wanted(p, room).Keys;
    }

    static method Occupied(current: Exits, exits: Exits) returns (occupied: bool)
      ensures occupied <==> Clashes(current, exits)
    {
      var todo := exits.Keys;
      while todo != {}
        invariant todo <= exits.Keys
        invariant forall e :: e in exits && e !in todo && e in current && current[e].Some? ==> current[e] == exits[e]
        decreases todo
      {
        var e :| e in todo;
        todo := todo - {e};
        if e in current && current[e].Some? && current[e] != exits[e] {
          return true;
        }
      }
      return false;
    }

    // Some(row) is the row written back; None an exit in the way or unreadable exits.
    static method LinkRoom(p: Placing, mint: Mint, room: Room, row: RoomRow) returns (r: Option<RoomRow>)
      requires forall d :: d in room.exits ==> room.exits[d] in p.ids
      ensures r == if Blocked(p, room, row) then None else Some(Linked(p, mint, room, row))
    {
      hide Wanted, Clashes;
      var exits := ExitsToWrite(p, room);
      if exits == map[] && room.key !in p.added {
        return Some(row);
      }
      if room.key !in p.added {
        if row.exits.None? {
          return None;
        }
        var current := row.exits.value;
        var occupied := Occupied(current, exits);
        if occupied {
          return None;
        }
        return Some(row.(exits := Some(current + exits)));
      }
      var script := row.script;
      if script.None? && room.script != "" {
        script := Some(mint.script(room.script));
      }
      return Some(row.(exits := Some(row.exits.GetOr(map[]) + exits), description := room.description,
                       short := if row.short.Some? then row.short else Some(row.name), script := script));
    }

    method InstallMonsters(mint: Mint, ids: map<string, nat>, list: seq<Monster>) returns (db: map<string, MonsterRow>)
      requires forall m :: m in list ==> m.room in ids
      ensures db == WithMonsters(monsters, mint, ids, list)
    {
      db := monsters;
      var i := 0;
      while i < |list|
        invariant 0 <= i <= |list| && db == WithMonsters(monsters, mint, ids, list[..i])
      {
        assert list[..i + 1][..i] == list[..i];
        var m := list[i];
        if m.key !in db {
          db := db[m.key := MonsterRow(m, ids[m.room], if m.loot == "" then None else mint.item(m.loot))];
        }
        i := i + 1;
      }
      assert list[..i] == list;
    }
  }
}
