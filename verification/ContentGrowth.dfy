// Installing bundled content extends a live world without taking anything back.
module ContentGrowth {
  import opened Wrappers
  import opened WorldPlan
  import opened ScriptStore
  import opened ContentInstall

  // The row the installation finds for a room of the pack.
  function Found(p: Placing, room: Room): RoomRow
    requires room.key in p.ids && p.ids[room.key] in p.rooms
  {
    p.rooms[p.ids[room.key]]
  }

  ghost predicate Separate(p: Placing, rooms: seq<Room>)
    requires Known(p, rooms)
  {
    forall i, j :: 0 <= i < j < |rooms| ==> p.ids[rooms[i].key] != p.ids[rooms[j].key]
  }

  lemma KnownPrefix(p: Placing, rooms: seq<Room>, n: nat)
    requires n <= |rooms| && Known(p, rooms)
    ensures Known(p, rooms[..n]) && (Separate(p, rooms) ==> Separate(p, rooms[..n]))
  {
  }

  // Every room of the list judged and linked as it was found, other rooms untouched.
  ghost predicate AtOnce(p: Placing, mint: Mint, rooms: seq<Room>, r: Option<map<nat, RoomRow>>)
    requires Known(p, rooms) && (r.Some? ==> r.value.Keys == p.rooms.Keys)
  {
    && (r.None? <==> exists i :: 0 <= i < |rooms| && Blocked(p, rooms[i], Found(p, rooms[i])))
    && (r.Some? ==>
          && (forall i :: 0 <= i < |rooms| ==> r.value[p.ids[rooms[i].key]] == Linked(p, mint, rooms[i], Found(p, rooms[i])))
          && (forall id :: id in p.rooms && (forall i :: 0 <= i < |rooms| ==> p.ids[rooms[i].key] != id) ==>
                r.value[id] == p.rooms[id]))
  }

  lemma AtOnceNext(p: Placing, mint: Mint, rooms: seq<Room>, r: Option<map<nat, RoomRow>>, t: Option<map<nat, RoomRow>>)
    requires rooms != [] && Known(p, rooms) && Separate(p, rooms)
    requires (r.Some? ==> r.value.Keys == p.rooms.Keys) && (t.Some? ==> t.value.Keys == p.rooms.Keys)
    requires var n := |rooms| - 1; Known(p, rooms[..n]) && AtOnce(p, mint, rooms[..n], r)
    requires var last := rooms[|rooms| - 1];
             var id := p.ids[last.key];
             t == if r.None? || Blocked(p, last, r.value[id]) then None
                  else Some(r.value[id := Linked(p, mint, last, r.value[id])])
    ensures AtOnce(p, mint, rooms, t)
  {
    hide Blocked, Linked;
    var n := |rooms| - 1;
    assert forall i :: 0 <= i < n ==> rooms[..n][i] == rooms[i];
    assert forall i :: 0 <= i < n ==> p.ids[rooms[i].key] != p.ids[rooms[n].key];
    hide Separate, Known;
  }

  // Room by room is all at once: each room is judged and linked as it was found.
  lemma {:induction false} LinkedRows(p: Placing, mint: Mint, rooms: seq<Room>)
    requires Known(p, rooms) && Separate(p, rooms)
    ensures AtOnce(p, mint, rooms, LinkAll(p, mint, rooms))
  {
    hide Blocked, Linked, Wanted, AtOnce, Separate;
    if rooms == [] {
      NoneLinked(p, mint);
    } else {
      var n := |rooms| - 1;
      KnownPrefix(p, rooms, n);
      LinkedRows(p, mint, rooms[..n]);
      AtOnceNext(p, mint, rooms, LinkAll(p, mint, rooms[..n]), LinkAll(p, mint, rooms));
    }
  }

  lemma NoneLinked(p: Placing, mint: Mint)
    ensures AtOnce(p, mint, [], Some(p.rooms))
  {
  }

  lemma PlacedSeparate(p: Placing, mint: Mint, db: Content, pack: Pack)
    requires Placed(p, mint, db, pack.rooms) && PackOk(pack) && Known(p, pack.rooms)
    ensures Separate(p, pack.rooms)
  {
    hide MintedFor;
    forall i, j | 0 <= i < j < |pack.rooms|
      ensures p.ids[pack.rooms[i].key] != p.ids[pack.rooms[j].key]
    {
      var a, b := pack.rooms[i].key, pack.rooms[j].key;
      assert p.ids[a] == p.keys[a] && p.ids[b] == p.keys[b] && a != b;
    }
  }

  // A room installed earlier cannot take an exit to a new room: its exits cannot be read, or
  // it has another one in that direction.
  predicate Refuses(p: Placing, db: Content, room: Room)
    requires forall d :: d in room.exits ==> room.exits[d] in p.ids
    requires room.key in db.keys && db.keys[room.key] in db.rooms
  {
    var exits := db.rooms[db.keys[room.key]].exits;
    exists d :: d in room.exits && room.exits[d] in p.added && Occupied(exits, Compass(d), Some(p.ids[room.exits[d]]))
  }

  // What an installed room is to be given: exits to new rooms.
  lemma WantedNew(p: Placing, room: Room)
    requires (forall d :: d in room.exits ==> room.exits[d] in p.ids) && room.key !in p.added
    ensures forall e :: e in Wanted(p, room) <==> e.Compass? && e.direction in room.exits && room.exits[e.direction] in p.added
    ensures forall e :: e in Wanted(p, room) ==> Wanted(p, room)[e] == Some(p.ids[room.exits[e.direction]])
  {
  }

  // An exit that another one occupies, or that cannot be read.
  predicate Occupied(exits: Option<Exits>, e: Exit, to: Option<nat>) {
    exits.None? || (e in exits.value && exits.value[e].Some? && exits.value[e] != to)
  }

  lemma ClashesAt(exits: Option<Exits>, wanted: Exits)
    ensures wanted != map[] && (exits.None? || Clashes(exits.value, wanted)) <==>
            exists e :: e in wanted && Occupied(exits, e, wanted[e])
  {
    if wanted != map[] && exits.None? {
      var e :| e in wanted;
      assert Occupied(exits, e, wanted[e]);
    }
    if exits.Some? && Clashes(exits.value, wanted) {
      var e :| e in wanted && e in exits.value && exits.value[e].Some? && exits.value[e] != wanted[e];
      assert Occupied(exits, e, wanted[e]);
    }
  }

  lemma RefusesBlocked(p: Placing, db: Content, room: Room)
    requires forall d :: d in room.exits ==> room.exits[d] in p.ids
    requires room.key in db.keys && db.keys[room.key] in db.rooms && room.key !in p.added
    ensures Blocked(p, room, db.rooms[db.keys[room.key]]) <==> Refuses(p, db, room)
  {
    WantedNew(p, room);
    var wanted, exits := Wanted(p, room), db.rooms[db.keys[room.key]].exits;
    ClashesAt(exits, wanted);
    hide Wanted, Clashes, Occupied;
    if d :| d in room.exits && room.exits[d] in p.added && Occupied(exits, Compass(d), Some(p.ids[room.exits[d]])) {
      assert Compass(d) in wanted && Occupied(exits, Compass(d), wanted[Compass(d)]);
    }
    if e :| e in wanted && Occupied(exits, e, wanted[e]) {
      assert e.direction in room.exits && Occupied(exits, Compass(e.direction), Some(p.ids[room.exits[e.direction]]));
    }
  }

  // The rows of the installed world: what they were, linked.
  ghost predicate Outcome(p: Placing, mint: Mint, pack: Pack, after: Content) {
    && Known(p, pack.rooms) && after.keys == p.keys && after.rooms.Keys == p.rooms.Keys
    && (forall i :: 0 <= i < |pack.rooms| ==>
          && !Blocked(p, pack.rooms[i], Found(p, pack.rooms[i]))
          && after.rooms[p.ids[pack.rooms[i].key]] == Linked(p, mint, pack.rooms[i], Found(p, pack.rooms[i])))
    && (forall id :: id in p.rooms && (forall i :: 0 <= i < |pack.rooms| ==> p.ids[pack.rooms[i].key] != id) ==>
          after.rooms[id] == p.rooms[id])
  }

  lemma InstalledRows(mint: Mint, db: Content, pack: Pack) returns (p: Placing)
    requires PackOk(pack) && KeysOk(db.rooms, db.keys) && MintOk(mint, db, pack.rooms) && Installation(mint, db, pack).Some?
    ensures PlaceAll(mint, db, pack.rooms) == Some(p) && Placed(p, mint, db, pack.rooms)
    ensures Known(p, pack.rooms) && Separate(p, pack.rooms) && Outcome(p, mint, pack, Installation(mint, db, pack).value)
  {
    hide PlaceAll, Linked, Blocked, WithMonsters, WithScripts, Wanted, Placed;
    p := PlaceAll(mint, db, pack.rooms).value;
    PlaceAllKeeps(mint, db, pack.rooms);
    PlacedKnown(p, mint, db, pack);
    PlacedSeparate(p, mint, db, pack);
    LinkedRows(p, mint, pack.rooms);
  }

  // An old content key would adopt the oldest room of its name, but that room already
  // serves another key.
  ghost predicate Collides(rooms: map<nat, RoomRow>, keys: map<string, nat>, room: Room) {
    && room.key !in keys && Adopts(rooms, room)
    && exists k :: k in keys && keys[k] == Oldest(rooms, room.name)
  }

  // The n-th room of the pack is the first that cannot be placed.
  ghost predicate Unplaceable(mint: Mint, db: Content, rooms: seq<Room>, n: nat)
    requires n < |rooms|
  {
    var p := PlaceAll(mint, db, rooms[..n]);
    p.Some? && Collides(p.value.rooms, p.value.keys, rooms[n])
  }

  lemma PlaceFails(p: Placing, mint: Mint, db: Content, rooms: seq<Room>, room: Room)
    requires Placed(p, mint, db, rooms) && MintOk(mint, db, rooms + [room])
    ensures Place(mint, p, room).None? <==> Collides(p.rooms, p.keys, room)
  {
    if room.key !in p.keys {
      MintUnused(p, mint, db, rooms, room);
      hide Adopts, IsOldest, MintOk, MintedFor;
      assert KeysOk(p.rooms, p.keys);
    }
  }

  lemma {:induction false} PlacementFails(mint: Mint, db: Content, rooms: seq<Room>)
    requires KeysOk(db.rooms, db.keys) && MintOk(mint, db, rooms)
    requires forall i, j :: 0 <= i < j < |rooms| ==> rooms[i].key != rooms[j].key
    ensures PlaceAll(mint, db, rooms).None? <==> exists n: nat :: n < |rooms| && Unplaceable(mint, db, rooms, n)
  {
    hide Placed, Place, MintOk, Collides, KeysOk;
    if rooms != [] {
      var n := |rooms| - 1;
      var before := rooms[..n];
      MintPrefix(mint, db, rooms, n);
      PlacementFails(mint, db, before);
      PlaceAllKeeps(mint, db, before);
      assert rooms == before + [rooms[n]];
      forall m: nat | m < n
        ensures Unplaceable(mint, db, rooms, m) <==> Unplaceable(mint, db, before, m)
      {
        assert before[..m] == rooms[..m];
      }
      if PlaceAll(mint, db, before).Some? {
        PlaceFails(PlaceAll(mint, db, before).value, mint, db, before, rooms[n]);
        assert PlaceAll(mint, db, rooms).None? <==> Unplaceable(mint, db, rooms, n);
      } else {
        var m: nat :| m < n && Unplaceable(mint, db, before, m);
        assert Unplaceable(mint, db, rooms, m);
      }
    }
  }

  // New rows and adopted rows have the names of the rooms placed so far.
  ghost predicate Named(p: Placing, db: Content, rooms: seq<Room>) {
    && (forall i :: i in db.rooms ==> i in p.rooms && p.rooms[i] == db.rooms[i])
    && (forall i :: i in p.rooms && i !in db.rooms ==> HasName(rooms, p.rooms[i].name))
    && (forall k :: k in p.keys ==> p.keys[k] in p.rooms)
    && (forall k :: k in db.keys ==> k in p.keys && p.keys[k] == db.keys[k])
    && (forall k :: k in p.keys && k !in db.keys ==> HasRoom(rooms, k) && HasName(rooms, p.rooms[p.keys[k]].name))
  }

  predicate HasName(rooms: seq<Room>, name: string) {
    exists i :: 0 <= i < |rooms| && rooms[i].name == name
  }

  lemma HasNext(rooms: seq<Room>, room: Room)
    ensures forall s :: HasName(rooms, s) ==> HasName(rooms + [room], s)
    ensures forall s :: HasRoom(rooms, s) ==> HasRoom(rooms + [room], s)
    ensures HasName(rooms + [room], room.name) && HasRoom(rooms + [room], room.key)
  {
    assert forall i :: 0 <= i < |rooms| ==> (rooms + [room])[i] == rooms[i];
    assert (rooms + [room])[|rooms|] == room;
  }

  lemma NamedMore(p: Placing, q: Placing, db: Content, rooms: seq<Room>, room: Room, id: nat)
    requires Named(p, db, rooms) && room.key !in p.keys && q.keys == p.keys[room.key := id]
    requires if id in p.rooms then q.rooms == p.rooms else id !in db.rooms && q.rooms.Keys == p.rooms.Keys + {id}
    requires id in q.rooms && q.rooms[id].name == room.name && forall i :: i in p.rooms ==> q.rooms[i] == p.rooms[i]
    ensures Named(q, db, rooms + [room])
  {
    HasNext(rooms, room);
    hide HasName, HasRoom;
  }

  lemma NamedStill(p: Placing, q: Placing, db: Content, rooms: seq<Room>, room: Room)
    requires Named(p, db, rooms) && q.rooms == p.rooms && q.keys == p.keys
    ensures Named(q, db, rooms + [room])
  {
    HasNext(rooms, room);
    hide HasName, HasRoom;
  }

  lemma NamedNext(p: Placing, mint: Mint, db: Content, rooms: seq<Room>, room: Room)
    requires Named(p, db, rooms) && Placed(p, mint, db, rooms) && MintOk(mint, db, rooms + [room]) && Place(mint, p, room).Some?
    ensures Named(Place(mint, p, room).value, db, rooms + [room])
  {
    var q := Place(mint, p, room).value;
    hide Named, Placed, MintOk;
    if room.key in p.keys {
      NamedStill(p, q, db, rooms, room);
    } else {
      MintUnused(p, mint, db, rooms, room);
      NamedMore(p, q, db, rooms, room, if Adopts(p.rooms, room) then Oldest(p.rooms, room.name) else mint.room(room.key));
    }
  }

  lemma {:induction false} AllNamed(mint: Mint, db: Content, rooms: seq<Room>)
    requires KeysOk(db.rooms, db.keys) && MintOk(mint, db, rooms)
    requires forall i, j :: 0 <= i < j < |rooms| ==> rooms[i].key != rooms[j].key
    ensures PlaceAll(mint, db, rooms).Some? ==> Named(PlaceAll(mint, db, rooms).value, db, rooms)
  {
    hide Placed, Place, MintOk, Named;
    if rooms == [] {
      NothingNamed(db);
    } else {
      var n := |rooms| - 1;
      MintPrefix(mint, db, rooms, n);
      AllNamed(mint, db, rooms[..n]);
      PlaceAllKeeps(mint, db, rooms[..n]);
      assert rooms == rooms[..n] + [rooms[n]];
      if PlaceAll(mint, db, rooms).Some? {
        NamedNext(PlaceAll(mint, db, rooms[..n]).value, mint, db, rooms[..n], rooms[n]);
      }
    }
  }

  lemma NothingNamed(db: Content)
    requires KeysOk(db.rooms, db.keys)
    ensures Named(Placing(db.rooms, db.keys, map[], {}), db, [])
  {
  }

  lemma OneOldest(rooms: map<nat, RoomRow>, name: string, i: nat, j: nat)
    requires IsOldest(rooms, name, i) && IsOldest(rooms, name, j)
    ensures i == j
  {
  }

  // Rows of a name no room placed so far has are those that were there.
  lemma SameOldest(p: Placing, db: Content, rooms: seq<Room>, room: Room)
    requires Named(p, db, rooms) && !HasName(rooms, room.name) && !HasRoom(rooms, room.key)
    ensures Collides(p.rooms, p.keys, room) <==> Collides(db.rooms, db.keys, room)
  {
    hide HasName, HasRoom, IsOldest, Older;
    assert Adopts(p.rooms, room) <==> Adopts(db.rooms, room);
    if Adopts(db.rooms, room) {
      var i := Oldest(db.rooms, room.name);
      OldestThere(p, db, rooms, room.name, i);
      OneOldest(p.rooms, room.name, Oldest(p.rooms, room.name), i);
    }
  }

  lemma OldestThere(p: Placing, db: Content, rooms: seq<Room>, name: string, i: nat)
    requires Named(p, db, rooms) && !HasName(rooms, name) && IsOldest(db.rooms, name, i)
    ensures IsOldest(p.rooms, name, i)
    ensures forall k :: k in p.keys && p.keys[k] == i ==> k in db.keys
  {
    hide HasName, HasRoom;
  }

  // With distinct names in the pack the collision shows in the database before the
  // installation: the oldest room of an old key's name already serves another key.
  lemma {:induction false} PlacementFailsAtOnce(mint: Mint, db: Content, rooms: seq<Room>)
    requires KeysOk(db.rooms, db.keys) && MintOk(mint, db, rooms)
    requires forall i, j :: 0 <= i < j < |rooms| ==> rooms[i].key != rooms[j].key && rooms[i].name != rooms[j].name
    ensures PlaceAll(mint, db, rooms).None? <==> exists room :: room in rooms && Collides(db.rooms, db.keys, room)
  {
    hide Placed, Place, MintOk, Collides, KeysOk, Named;
    if rooms != [] {
      var n := |rooms| - 1;
      var before := rooms[..n];
      MintPrefix(mint, db, rooms, n);
      PlacementFailsAtOnce(mint, db, before);
      assert rooms == before + [rooms[n]];
      if PlaceAll(mint, db, before).Some? {
        PlaceAllKeeps(mint, db, before);
        AllNamed(mint, db, before);
        PlaceFails(PlaceAll(mint, db, before).value, mint, db, before, rooms[n]);
        SameOldest(PlaceAll(mint, db, before).value, db, before, rooms[n]);
      }
    }
  }

  // It fails exactly when an old content key would adopt a room that serves another key,
  // or a room installed earlier refuses its new exits, judged against the rooms as they
  // were before.
  lemma InstallationFails(mint: Mint, db: Content, pack: Pack)
    requires PackOk(pack) && KeysOk(db.rooms, db.keys) && MintOk(mint, db, pack.rooms)
    ensures var placed := PlaceAll(mint, db, pack.rooms);
            && (placed.None? <==> exists n: nat :: n < |pack.rooms| && Unplaceable(mint, db, pack.rooms, n))
            && (placed.Some? ==> Known(placed.value, pack.rooms))
            && (Installation(mint, db, pack).None? <==>
                  placed.None? ||
                  exists i :: 0 <= i < |pack.rooms| && pack.rooms[i].key in db.keys && Refuses(placed.value, db, pack.rooms[i]))
  {
    PlacementFails(mint, db, pack.rooms);
    hide Unplaceable;
    if PlaceAll(mint, db, pack.rooms).Some? {
      RefusedExits(mint, db, pack);
    }
  }

  lemma RefusedExits(mint: Mint, db: Content, pack: Pack)
    requires PackOk(pack) && KeysOk(db.rooms, db.keys) && MintOk(mint, db, pack.rooms) && PlaceAll(mint, db, pack.rooms).Some?
    ensures var p := PlaceAll(mint, db, pack.rooms).value;
            && Known(p, pack.rooms)
            && (Installation(mint, db, pack).None? <==>
                exists i :: 0 <= i < |pack.rooms| && pack.rooms[i].key in db.keys && Refuses(p, db, pack.rooms[i]))
  {
    hide PlaceAll, Wanted, WithMonsters, WithScripts, Clashes, Linked, MintedFor;
    var p := PlaceAll(mint, db, pack.rooms).value;
    PlaceAllKeeps(mint, db, pack.rooms);
    PlacedKnown(p, mint, db, pack);
    PlacedSeparate(p, mint, db, pack);
    LinkedRows(p, mint, pack.rooms);
    forall i | 0 <= i < |pack.rooms|
      ensures Blocked(p, pack.rooms[i], Found(p, pack.rooms[i])) <==>
              pack.rooms[i].key in db.keys && Refuses(p, db, pack.rooms[i])
    {
      var key := pack.rooms[i].key;
      assert key in p.ids && p.ids[key] == p.keys[key];
      if key in db.keys {
        assert p.keys[key] == db.keys[key] && db.keys[key] in db.rooms;
        RefusesBlocked(p, db, pack.rooms[i]);
      }
    }
  }

  // Exits of `old` are still there in `new`, and nothing else of the row changed.
  ghost predicate Grown(before: RoomRow, after: RoomRow) {
    && after == before.(exits := after.exits)
    && (before.exits.Some? ==>
          && after.exits.Some?
          && forall e :: e in before.exits.value && before.exits.value[e].Some? ==>
               e in after.exits.value && after.exits.value[e] == before.exits.value[e])
  }

  lemma SameGrown(row: RoomRow)
    ensures Grown(row, row)
  {
  }

  lemma UnblockedGrows(p: Placing, mint: Mint, room: Room, row: RoomRow)
    requires forall d :: d in room.exits ==> room.exits[d] in p.ids
    requires room.key !in p.added && !Blocked(p, room, row)
    ensures Grown(row, Linked(p, mint, room, row))
  {
    hide Wanted;
  }

  // A conservative extension: installed content keys keep their rooms, whose exits only
  // grow and which otherwise stay as they are, detached scripts included; rooms outside
  // the content stay as they are unless they are adopted.
  lemma ConservativeExtension(mint: Mint, db: Content, pack: Pack)
    requires PackOk(pack) && KeysOk(db.rooms, db.keys) && MintOk(mint, db, pack.rooms)
    ensures Installation(mint, db, pack).Some? ==> Extends(db, Installation(mint, db, pack).value)
  {
    hide Extends;
    if Installation(mint, db, pack).Some? {
      var p := InstalledRows(mint, db, pack);
      hide Installation;
      OutcomeExtends(p, mint, db, pack, Installation(mint, db, pack).value);
    }
  }

  ghost predicate Extends(db: Content, after: Content) {
    && KeysOk(db.rooms, db.keys) && KeysOk(after.rooms, after.keys)
    && (forall k :: k in db.keys ==> k in after.keys && after.keys[k] == db.keys[k])
    && (forall k :: k in db.keys ==> Grown(db.rooms[db.keys[k]], after.rooms[db.keys[k]]))
    && (forall i :: i in db.rooms ==> i in after.rooms)
    && (forall i :: i in db.rooms && (forall k :: k in after.keys ==> after.keys[k] != i) ==> after.rooms[i] == db.rooms[i])
  }

  lemma OutcomeExtends(p: Placing, mint: Mint, db: Content, pack: Pack, after: Content)
    requires Placed(p, mint, db, pack.rooms) && Outcome(p, mint, pack, after) && KeysOk(db.rooms, db.keys)
    ensures Extends(db, after)
  {
    hide Outcome, Placed, Grown;
    PlacedFacts(p, mint, db, pack);
    KeysKept(p, mint, pack, after);
    forall k | k in db.keys
      ensures Grown(db.rooms[db.keys[k]], after.rooms[db.keys[k]])
    {
      KeyGrows(p, mint, db, pack, after, k);
    }
    forall i | i in db.rooms && forall k :: k in after.keys ==> after.keys[k] != i
      ensures after.rooms[i] == db.rooms[i]
    {
      OutsideStays(p, mint, db, pack, after, i);
    }
  }

  lemma KeysKept(p: Placing, mint: Mint, pack: Pack, after: Content)
    requires KeysOk(p.rooms, p.keys) && Outcome(p, mint, pack, after)
    ensures KeysOk(after.rooms, after.keys) && after.keys == p.keys && after.rooms.Keys == p.rooms.Keys
  {
  }

  lemma PlacedFacts(p: Placing, mint: Mint, db: Content, pack: Pack)
    requires Placed(p, mint, db, pack.rooms)
    ensures KeysOk(p.rooms, p.keys)
    ensures forall k :: k in db.keys ==> k in p.keys && p.keys[k] == db.keys[k] && k !in p.added
    ensures forall k :: k in p.ids ==> k in p.keys && p.ids[k] == p.keys[k]
    ensures forall i :: i in db.rooms ==> i in p.rooms && p.rooms[i] == db.rooms[i]
  {
    hide MintedFor;
  }

  lemma KeyGrows(p: Placing, mint: Mint, db: Content, pack: Pack, after: Content, k: string)
    requires Placed(p, mint, db, pack.rooms) && Outcome(p, mint, pack, after) && KeysOk(db.rooms, db.keys) && k in db.keys
    ensures Grown(db.rooms[db.keys[k]], after.rooms[db.keys[k]])
  {
    PlacedFacts(p, mint, db, pack);
    hide Placed, Blocked, Linked, Grown;
    var id := db.keys[k];
    if i :| 0 <= i < |pack.rooms| && p.ids[pack.rooms[i].key] == id {
      SameKey(p, pack.rooms[i].key, k);
      UnblockedGrows(p, mint, pack.rooms[i], db.rooms[id]);
    } else {
      SameGrown(db.rooms[id]);
    }
  }

  lemma OutsideStays(p: Placing, mint: Mint, db: Content, pack: Pack, after: Content, id: nat)
    requires Placed(p, mint, db, pack.rooms) && Outcome(p, mint, pack, after)
    requires id in db.rooms && forall k :: k in after.keys ==> after.keys[k] != id
    ensures after.rooms[id] == db.rooms[id]
  {
    PlacedFacts(p, mint, db, pack);
    hide Placed, Blocked, Linked;
    forall i | 0 <= i < |pack.rooms|
      ensures p.ids[pack.rooms[i].key] != id
    {
      var key := pack.rooms[i].key;
      assert key in p.ids && p.ids[key] == p.keys[key] && key in after.keys;
    }
  }

  lemma SameKey(p: Placing, j: string, k: string)
    requires KeysOk(p.rooms, p.keys) && j in p.ids && j in p.keys && k in p.keys && p.ids[j] == p.keys[j] == p.keys[k]
    ensures j == k
  {
  }

  // Exit d of room x leads to room y.
  predicate HasExit(rooms: map<nat, RoomRow>, x: nat, d: Direction, y: nat) {
    x in rooms && rooms[x].exits.Some? && Compass(d) in rooms[x].exits.value && rooms[x].exits.value[Compass(d)] == Some(y)
  }

  lemma LinkedExit(p: Placing, mint: Mint, room: Room, row: RoomRow, d: Direction)
    requires forall d :: d in room.exits ==> room.exits[d] in p.ids
    requires d in room.exits && (room.key in p.added || room.exits[d] in p.added)
    ensures var exits := Linked(p, mint, room, row).exits;
            exits.Some? && Compass(d) in exits.value && exits.value[Compass(d)] == Some(p.ids[room.exits[d]])
  {
    assert Compass(d) in Wanted(p, room);
  }

  // Every declared link with a new end is there, and so is the exit that undoes it.
  lemma NewLinksBothWays(mint: Mint, db: Content, pack: Pack, i: nat, d: Direction)
    requires PackOk(pack) && KeysOk(db.rooms, db.keys) && MintOk(mint, db, pack.rooms)
    requires i < |pack.rooms| && d in pack.rooms[i].exits
    requires pack.rooms[i].key !in db.keys || pack.rooms[i].exits[d] !in db.keys
    ensures Installation(mint, db, pack).Some? ==>
              var after := Installation(mint, db, pack).value;
              var x, y := pack.rooms[i].key, pack.rooms[i].exits[d];
              && x in after.keys && y in after.keys
              && HasExit(after.rooms, after.keys[x], d, after.keys[y])
              && forall e :: Undoes(e, d) ==> HasExit(after.rooms, after.keys[y], e, after.keys[x])
  {
    if Installation(mint, db, pack).Some? {
      var p := InstalledRows(mint, db, pack);
      var after := Installation(mint, db, pack).value;
      hide Installation, PlaceAll, Outcome, MintedFor;
      assert Returns(pack.rooms, i, d);
      var j :| 0 <= j < |pack.rooms| && pack.rooms[j].key == pack.rooms[i].exits[d] && j != i
               && Opposite(d) in pack.rooms[j].exits && pack.rooms[j].exits[Opposite(d)] == pack.rooms[i].key;
      hide PackOk;
      ExitWritten(p, mint, db, pack, after, i, d);
      ExitWritten(p, mint, db, pack, after, j, Opposite(d));
      forall e | Undoes(e, d)
        ensures e == Opposite(d)
      {
        OppositeUndoes(d, e);
      }
    }
  }

  lemma ExitWritten(p: Placing, mint: Mint, db: Content, pack: Pack, after: Content, i: nat, d: Direction)
    requires Placed(p, mint, db, pack.rooms) && Outcome(p, mint, pack, after)
    requires i < |pack.rooms| && d in pack.rooms[i].exits && pack.rooms[i].exits[d] in p.ids
    requires pack.rooms[i].key !in db.keys || pack.rooms[i].exits[d] !in db.keys
    ensures var x, y := pack.rooms[i].key, pack.rooms[i].exits[d];
            x in after.keys && y in after.keys && HasExit(after.rooms, after.keys[x], d, after.keys[y])
  {
    hide Blocked, Linked, PlacedRows;
    var room := pack.rooms[i];
    assert room.key in p.ids && p.ids[room.key] == p.keys[room.key];
    assert p.ids[room.exits[d]] == p.keys[room.exits[d]];
    LinkedExit(p, mint, room, Found(p, room), d);
  }

  lemma AdoptedRow(p: Placing, mint: Mint, room: Room, row: RoomRow, e: Exit)
    requires forall d :: d in room.exits ==> room.exits[d] in p.ids
    requires room.key in p.added && row.exits.Some? && e in row.exits.value
    ensures var after := Linked(p, mint, room, row);
            && (row.script.Some? ==> after.script == row.script)
            && after.exits.Some? && e in after.exits.value
            && (after.exits.value[e] == row.exits.value[e] <==>
                !(e.Compass? && e.direction in room.exits) || row.exits.value[e] == Some(p.ids[room.exits[e.direction]]))
  {
  }

  // A room of the pack that was there before keeps its script, and exit e: whatever it
  // was if the pack declares none there, and else exactly if it led where the pack leads.
  predicate AdoptedAs(db: Content, after: Content, room: Room, e: Exit) {
    && room.key in after.keys && after.keys[room.key] in after.rooms
    && (forall d :: d in room.exits ==> room.exits[d] in after.keys)
    && var id := after.keys[room.key];
       (id in db.rooms ==>
          var (row, now) := (db.rooms[id], after.rooms[id]);
          && (row.script.Some? ==> now.script == row.script)
          && (row.exits.Some? && e in row.exits.value ==>
                && now.exits.Some? && e in now.exits.value
                && (now.exits.value[e] == row.exits.value[e] <==>
                      !(e.Compass? && e.direction in room.exits)
                      || row.exits.value[e] == Some(after.keys[room.exits[e.direction]]))))
  }

  // A room of the pack that is new or adopted: its description, script and exits.
  ghost predicate FurnishedAs(mint: Mint, db: Content, after: Content, room: Room) {
    && room.key in after.keys && after.keys[room.key] in after.rooms
    && var id := after.keys[room.key];
       var row := after.rooms[id];
       && row.description == room.description
       && (id in db.rooms <==> room.key in {"square", "gate", "market", "inn", "docks"}
                               && exists j :: j in db.rooms && db.rooms[j].name == room.name)
       && (forall d :: d in room.exits ==> room.exits[d] in after.keys && HasExit(after.rooms, id, d, after.keys[room.exits[d]]))
       && (id !in db.rooms ==>
             && id == mint.room(room.key) && row.name == room.name && row.short == Some(room.name) && row.kind == room.kind
             && row.created == mint.now
             && row.script == (if room.script == "" then None else Some(mint.script(room.script)))
             && row.exits.Some? && row.exits.value.Keys == set d | d in room.exits :: Compass(d))
       && (id in db.rooms ==>
             && row.name == room.name == db.rooms[id].name && row.kind == db.rooms[id].kind
             && (forall j :: j in db.rooms && db.rooms[j].name == room.name ==>
                   db.rooms[id].created < db.rooms[j].created || (db.rooms[id].created == db.rooms[j].created && id <= j))
             && row.short == Some(db.rooms[id].short.GetOr(room.name))
             && row.script == if db.rooms[id].script.Some? then db.rooms[id].script
                              else if room.script == "" then None else Some(mint.script(room.script)))
  }

  // Where a room of the pack is placed that was not installed before.
  ghost predicate PlacedAs(p: Placing, mint: Mint, db: Content, room: Room) {
    && room.key in p.ids && p.ids[room.key] in p.rooms
    && var id := p.ids[room.key];
       if id in db.rooms then room.key in LEGACY && IsOldest(db.rooms, room.name, id) && p.rooms[id] == db.rooms[id]
       else id == mint.room(room.key) && p.rooms[id] == NewRow(mint, room) && !Adopts(db.rooms, room)
  }

  ghost predicate AllPlacedAs(p: Placing, mint: Mint, db: Content, rooms: seq<Room>) {
    forall i :: 0 <= i < |rooms| && rooms[i].key !in db.keys ==> PlacedAs(p, mint, db, rooms[i])
  }

  lemma PlacesAs(p: Placing, mint: Mint, db: Content, rooms: seq<Room>, room: Room)
    requires Placed(p, mint, db, rooms) && MintOk(mint, db, rooms + [room]) && !HasRoom(rooms, room.key)
    requires Place(mint, p, room).Some? && room.key !in db.keys
    ensures PlacedAs(Place(mint, p, room).value, mint, db, room)
  {
    FreshKey(p, db, rooms, room);
    MintUnused(p, mint, db, rooms, room);
    AdoptsOld(p, mint, db, rooms);
    AdoptsMore(p, db, room);
    hide Placed, MintOk, HasRoom, Older;
    assert Adopts(p.rooms, room) ==> room.key in LEGACY && exists i :: i in p.rooms && p.rooms[i].name == room.name;
    hide Adopts;
    var id := if Adopts(p.rooms, room) then Oldest(p.rooms, room.name) else mint.room(room.key);
    assert forall k :: k in p.keys ==> p.keys[k] != id;
    if Adopts(p.rooms, room) {
      OldestOfOld(p, db, room.name, id);
    }
  }

  lemma AdoptsMore(p: Placing, db: Content, room: Room)
    requires forall i :: i in db.rooms ==> i in p.rooms && p.rooms[i] == db.rooms[i]
    ensures Adopts(db.rooms, room) ==> Adopts(p.rooms, room)
  {
  }

  lemma FreshKey(p: Placing, db: Content, rooms: seq<Room>, room: Room)
    requires PlacedIds(p, db, rooms) && !HasRoom(rooms, room.key) && room.key !in db.keys
    ensures room.key !in p.keys
  {
  }

  // A row there was stays as it is; a row without a key was there before.
  lemma AdoptsOld(p: Placing, mint: Mint, db: Content, rooms: seq<Room>)
    requires Placed(p, mint, db, rooms)
    ensures forall i :: i in db.rooms ==> i in p.rooms && p.rooms[i] == db.rooms[i]
    ensures forall i :: i in p.rooms && (forall k :: k in p.keys ==> p.keys[k] != i) ==> i in db.rooms
  {
    forall i | i in p.rooms && i !in db.rooms
      ensures exists k :: k in p.keys && p.keys[k] == i
    {
      assert MintedFor(p, mint, i);
      var k :| k in p.added && k in p.ids && i == mint.room(k) && p.ids[k] == i;
      assert k in p.keys && p.keys[k] == i;
    }
    hide MintedFor;
  }

  lemma OldestOfOld(p: Placing, db: Content, name: string, i: nat)
    requires IsOldest(p.rooms, name, i) && i in db.rooms && forall j :: j in db.rooms ==> j in p.rooms && p.rooms[j] == db.rooms[j]
    ensures IsOldest(db.rooms, name, i)
  {
  }

  lemma StillPlacedAs(p: Placing, mint: Mint, db: Content, rooms: seq<Room>, room: Room, earlier: Room)
    requires Placed(p, mint, db, rooms) && MintOk(mint, db, rooms + [room]) && earlier.key != room.key
    requires PlacedAs(p, mint, db, earlier) && Place(mint, p, room).Some?
    ensures PlacedAs(Place(mint, p, room).value, mint, db, earlier)
  {
    if room.key !in p.keys {
      MintUnused(p, mint, db, rooms, room);
    }
    hide Placed, MintOk, IsOldest;
  }

  lemma {:induction false} EveryPlacedAs(mint: Mint, db: Content, rooms: seq<Room>)
    requires KeysOk(db.rooms, db.keys) && MintOk(mint, db, rooms)
    requires forall i, j :: 0 <= i < j < |rooms| ==> rooms[i].key != rooms[j].key
    ensures PlaceAll(mint, db, rooms).Some? ==> AllPlacedAs(PlaceAll(mint, db, rooms).value, mint, db, rooms)
  {
    hide Placed, Place, MintOk, PlacedAs;
    if rooms != [] && PlaceAll(mint, db, rooms).Some? {
      var n := |rooms| - 1;
      var before := rooms[..n];
      MintPrefix(mint, db, rooms, n);
      EveryPlacedAs(mint, db, before);
      PlaceAllKeeps(mint, db, before);
      assert rooms == before + [rooms[n]];
      assert !HasRoom(before, rooms[n].key);
      var p := PlaceAll(mint, db, before).value;
      forall i | 0 <= i < |rooms| && rooms[i].key !in db.keys
        ensures PlacedAs(PlaceAll(mint, db, rooms).value, mint, db, rooms[i])
      {
        if i == n {
          PlacesAs(p, mint, db, before, rooms[n]);
        } else {
          assert before[i] == rooms[i];
          StillPlacedAs(p, mint, db, before, rooms[n], rooms[i]);
        }
      }
    }
  }

  // Every room of the pack that was not installed before is furnished as the pack says:
  // built with its name, kind, description, exits and script, or adopted, and then it gets
  // the description and exits but keeps a script of its own.
  lemma FurnishesRooms(mint: Mint, db: Content, pack: Pack, i: nat)
    requires PackOk(pack) && KeysOk(db.rooms, db.keys) && MintOk(mint, db, pack.rooms)
    requires i < |pack.rooms| && pack.rooms[i].key !in db.keys
    ensures Installation(mint, db, pack).Some? ==>
              FurnishedAs(mint, db, Installation(mint, db, pack).value, pack.rooms[i])
  {
    if Installation(mint, db, pack).Some? {
      var p := InstalledRows(mint, db, pack);
      EveryPlacedAs(mint, db, pack.rooms);
      var after := Installation(mint, db, pack).value;
      hide Installation, PlaceAll, PlacedAs;
      PlacedFacts(p, mint, db, pack);
      KeysKept(p, mint, pack, after);
      Furnished(p, mint, db, pack, after, i);
    }
  }

  lemma Furnished(p: Placing, mint: Mint, db: Content, pack: Pack, after: Content, i: nat)
    requires Placed(p, mint, db, pack.rooms) && Outcome(p, mint, pack, after)
    requires i < |pack.rooms| && pack.rooms[i].key !in db.keys && PlacedAs(p, mint, db, pack.rooms[i])
    ensures FurnishedAs(mint, db, after, pack.rooms[i])
  {
    PlacedFacts(p, mint, db, pack);
    KeysKept(p, mint, pack, after);
    var room := pack.rooms[i];
    assert room.key in p.added by {
      hide PlacedRows;
    }
    assert forall d :: d in room.exits ==> room.exits[d] in p.ids;
    var id := p.ids[room.key];
    assert after.rooms[id] == Linked(p, mint, room, p.rooms[id]);
    hide Placed, Blocked, Outcome, PlacedAs, FurnishedAs, Linked, KeysOk;
    LinkedAs(p, mint, db, after, room);
  }

  lemma LinkedAs(p: Placing, mint: Mint, db: Content, after: Content, room: Room)
    requires PlacedAs(p, mint, db, room) && room.key in p.added && after.keys == p.keys && after.rooms.Keys == p.rooms.Keys
    requires forall d :: d in room.exits ==> room.exits[d] in p.ids
    requires forall k :: k in p.ids ==> k in p.keys && p.ids[k] == p.keys[k]
    requires after.rooms[p.ids[room.key]] == Linked(p, mint, room, p.rooms[p.ids[room.key]])
    ensures FurnishedAs(mint, db, after, room)
  {
    LinkedFresh(p, mint, room, p.rooms[p.ids[room.key]]);
    var id := p.ids[room.key];
    assert id in db.rooms ==> db.rooms[id].name == room.name;
    hide Wanted;
  }

  lemma LinkedFresh(p: Placing, mint: Mint, room: Room, row: RoomRow)
    requires room.key in p.added && forall d :: d in room.exits ==> room.exits[d] in p.ids
    ensures var after := Linked(p, mint, room, row);
            && after.exits.Some?
            && (forall d :: d in room.exits ==>
                  Compass(d) in after.exits.value && after.exits.value[Compass(d)] == Some(p.ids[room.exits[d]]))
            && (row.exits == Some(map[]) ==> after.exits.value.Keys == set d | d in room.exits :: Compass(d))
  {
    forall d | d in room.exits
      ensures Compass(d) in Wanted(p, room)
    {
    }
  }

  // What an installation makes of a room it adopts: the room keeps its script and every
  // exit the pack does not declare; an exit in a declared direction keeps its target
  // exactly when it already led where the pack leads.
  lemma AdoptionKeeps(mint: Mint, db: Content, pack: Pack, i: nat, e: Exit)
    requires PackOk(pack) && KeysOk(db.rooms, db.keys) && MintOk(mint, db, pack.rooms)
    requires i < |pack.rooms| && pack.rooms[i].key !in db.keys
    ensures Installation(mint, db, pack).Some? ==>
              AdoptedAs(db, Installation(mint, db, pack).value, pack.rooms[i], e)
  {
    if Installation(mint, db, pack).Some? {
      var p := InstalledRows(mint, db, pack);
      var after := Installation(mint, db, pack).value;
      hide Installation, PlaceAll;
      PlacedFacts(p, mint, db, pack);
      KeysKept(p, mint, pack, after);
      AdoptedOutcome(p, mint, db, pack, after, i, e);
    }
  }

  lemma AdoptedOutcome(p: Placing, mint: Mint, db: Content, pack: Pack, after: Content, i: nat, e: Exit)
    requires Placed(p, mint, db, pack.rooms) && Outcome(p, mint, pack, after)
    requires i < |pack.rooms| && pack.rooms[i].key !in db.keys
    ensures AdoptedAs(db, after, pack.rooms[i], e)
  {
    PlacedFacts(p, mint, db, pack);
    var room := pack.rooms[i];
    assert room.key in p.ids && p.ids[room.key] == p.keys[room.key] && room.key in p.added;
    var id := p.ids[room.key];
    assert after.rooms[id] == Linked(p, mint, room, Found(p, room));
    hide Placed, Blocked, Wanted, Outcome;
    if id in db.rooms && db.rooms[id].exits.Some? && e in db.rooms[id].exits.value {
      AdoptedRow(p, mint, room, db.rooms[id], e);
    }
  }

  // A monster there was stays as it is; every other is the first of its key in the pack,
  // in its declared room, with the item it may drop.
  ghost predicate Populated(mint: Mint, before: map<string, MonsterRow>, after: map<string, MonsterRow>, keys: map<string, nat>,
                            monsters: seq<Monster>) {
    && (forall m :: m in monsters ==> m.key in after)
    && (forall k :: k in before ==> k in after && after[k] == before[k])
    && (forall k :: k in after && k !in before ==> exists i :: 0 <= i < |monsters| && Spawned(mint, after[k], keys, monsters, k, i))
  }

  ghost predicate Spawned(mint: Mint, row: MonsterRow, keys: map<string, nat>, monsters: seq<Monster>, k: string, i: nat)
    requires i < |monsters|
  {
    var m := monsters[i];
    && m.key == k && (forall j :: 0 <= j < i ==> monsters[j].key != k)
    && m.room in keys && row.room == keys[m.room] && row.stats == m
    && row.loot == if m.loot == "" then None else mint.item(m.loot)
  }

  lemma {:induction false} SpawnedAt(db: map<string, MonsterRow>, mint: Mint, ids: map<string, nat>, monsters: seq<Monster>, k: string)
    returns (i: nat)
    requires (forall m :: m in monsters ==> m.room in ids) && k in WithMonsters(db, mint, ids, monsters) && k !in db
    ensures i < |monsters| && Spawned(mint, WithMonsters(db, mint, ids, monsters)[k], ids, monsters, k, i)
  {
    var n := |monsters| - 1;
    if k in WithMonsters(db, mint, ids, monsters[..n]) {
      i := SpawnedAt(db, mint, ids, monsters[..n], k);
    } else {
      NoneBefore(db, mint, ids, monsters[..n], k);
      i := n;
    }
  }

  lemma MonstersPopulate(db: map<string, MonsterRow>, mint: Mint, ids: map<string, nat>, monsters: seq<Monster>)
    requires forall m :: m in monsters ==> m.room in ids
    ensures Populated(mint, db, WithMonsters(db, mint, ids, monsters), ids, monsters)
  {
    MonstersThere(db, mint, ids, monsters);
    var after := WithMonsters(db, mint, ids, monsters);
    hide WithMonsters, Spawned;
    forall k | k in after && k !in db
      ensures exists i :: 0 <= i < |monsters| && Spawned(mint, after[k], ids, monsters, k, i)
    {
      var i := SpawnedAt(db, mint, ids, monsters, k);
    }
  }

  lemma NoneBefore(db: map<string, MonsterRow>, mint: Mint, ids: map<string, nat>, monsters: seq<Monster>, k: string)
    requires (forall m :: m in monsters ==> m.room in ids) && k !in WithMonsters(db, mint, ids, monsters)
    ensures forall j :: 0 <= j < |monsters| ==> monsters[j].key != k
  {
    MonstersThere(db, mint, ids, monsters);
    forall j | 0 <= j < |monsters|
      ensures monsters[j].key != k
    {
      assert monsters[j] in monsters;
    }
  }

  // An installation puts every new monster in its room, and leaves those there alone.
  lemma SpawnsMonsters(mint: Mint, db: Content, pack: Pack)
    requires PackOk(pack) && KeysOk(db.rooms, db.keys) && MintOk(mint, db, pack.rooms)
    ensures Installation(mint, db, pack).Some? ==>
              var after := Installation(mint, db, pack).value;
              Populated(mint, db.monsters, after.monsters, after.keys, pack.monsters)
  {
    if Installation(mint, db, pack).Some? {
      var p := InstalledRows(mint, db, pack);
      var after := Installation(mint, db, pack).value;
      PlacedKnown(p, mint, db, pack);
      assert after.monsters == WithMonsters(db.monsters, mint, p.ids, pack.monsters);
      PlacedFacts(p, mint, db, pack);
      KeysKept(p, mint, pack, after);
      hide Installation, PlaceAll, WithMonsters, Placed, Outcome;
      MonstersPopulate(db.monsters, mint, p.ids, pack.monsters);
      SameRooms(mint, db.monsters, after.monsters, p.ids, after.keys, pack.monsters);
    }
  }

  lemma SameRooms(mint: Mint, before: map<string, MonsterRow>, after: map<string, MonsterRow>, ids: map<string, nat>, keys: map<string, nat>,
                  monsters: seq<Monster>)
    requires Populated(mint, before, after, ids, monsters) && forall k :: k in ids ==> k in keys && keys[k] == ids[k]
    ensures Populated(mint, before, after, keys, monsters)
  {
    forall k | k in after && k !in before
      ensures exists i :: 0 <= i < |monsters| && Spawned(mint, after[k], keys, monsters, k, i)
    {
      var i :| 0 <= i < |monsters| && Spawned(mint, after[k], ids, monsters, k, i);
      assert Spawned(mint, after[k], keys, monsters, k, i);
    }
  }

  // A bundled script runs as soon as it is installed, from its own source; one there before
  // is left alone, whatever has become of it.
  lemma BundlesScripts(mint: Mint, db: Content, pack: Pack)
    requires PackOk(pack) && KeysOk(db.rooms, db.keys) && MintOk(mint, db, pack.rooms)
    requires forall i, j :: 0 <= i < j < |pack.sources| ==> mint.script(pack.sources[i].0) != mint.script(pack.sources[j].0)
    ensures Installation(mint, db, pack).Some? ==>
              var after := Installation(mint, db, pack).value.scripts;
              forall i :: 0 <= i < |pack.sources| ==>
                var id := mint.script(pack.sources[i].0);
                id in after.scripts && after.scripts[id] ==
                  if id in db.scripts.scripts then db.scripts.scripts[id]
                  else Script("world_" + pack.sources[i].0, OnRoom, pack.sources[i].1, 1, true, Some(pack.sources[i].1), Some(1), None)
  {
    if Installation(mint, db, pack).Some? {
      assert Installation(mint, db, pack).value.scripts == WithScripts(db.scripts, mint, pack.sources);
      hide Installation, WithScripts;
      ScriptsPublished(db.scripts, mint, pack.sources);
    }
  }

  lemma {:induction false} ScriptsKept(db: Scripts, mint: Mint, sources: seq<(string, string)>, id: nat)
    ensures var after := WithScripts(db, mint, sources);
            && (id in db.scripts ==> id in after.scripts && after.scripts[id] == db.scripts[id])
            && (id in after.scripts ==> id in db.scripts || exists i :: 0 <= i < |sources| && id == mint.script(sources[i].0))
  {
    if sources != [] {
      var n := |sources| - 1;
      ScriptsKept(db, mint, sources[..n], id);
      assert sources[..n] + [sources[n]] == sources;
    }
  }

  lemma {:induction false} ScriptAt(db: Scripts, mint: Mint, sources: seq<(string, string)>, i: nat)
    requires forall i, j :: 0 <= i < j < |sources| ==> mint.script(sources[i].0) != mint.script(sources[j].0)
    requires i < |sources|
    ensures var after, id := WithScripts(db, mint, sources), mint.script(sources[i].0);
            id in after.scripts && after.scripts[id] ==
              if id in db.scripts then db.scripts[id]
              else Script("world_" + sources[i].0, OnRoom, sources[i].1, 1, true, Some(sources[i].1), Some(1), None)
  {
    var n := |sources| - 1;
    if i == n {
      ScriptsKept(db, mint, sources[..n], mint.script(sources[n].0));
    } else {
      ScriptAt(db, mint, sources[..n], i);
    }
  }

  lemma ScriptsPublished(db: Scripts, mint: Mint, sources: seq<(string, string)>)
    requires forall i, j :: 0 <= i < j < |sources| ==> mint.script(sources[i].0) != mint.script(sources[j].0)
    ensures var after := WithScripts(db, mint, sources);
            && (forall i :: 0 <= i < |sources| ==>
                  var id := mint.script(sources[i].0);
                  id in after.scripts && after.scripts[id] ==
                    if id in db.scripts then db.scripts[id]
                    else Script("world_" + sources[i].0, OnRoom, sources[i].1, 1, true, Some(sources[i].1), Some(1), None))
            && (forall id :: id in after.scripts ==> id in db.scripts || exists i :: 0 <= i < |sources| && id == mint.script(sources[i].0))
            && (forall id :: id in db.scripts ==> id in after.scripts && after.scripts[id] == db.scripts[id])
  {
    hide WithScripts;
    forall i | 0 <= i < |sources|
      ensures var id, after := mint.script(sources[i].0), WithScripts(db, mint, sources);
              id in after.scripts && after.scripts[id] ==
                if id in db.scripts then db.scripts[id]
                else Script("world_" + sources[i].0, OnRoom, sources[i].1, 1, true, Some(sources[i].1), Some(1), None)
    {
      ScriptAt(db, mint, sources, i);
    }
    forall id | id in WithScripts(db, mint, sources).scripts || id in db.scripts
      ensures id in db.scripts ==> id in WithScripts(db, mint, sources).scripts && WithScripts(db, mint, sources).scripts[id] == db.scripts[id]
      ensures id in db.scripts || exists i :: 0 <= i < |sources| && id == mint.script(sources[i].0)
    {
      ScriptsKept(db, mint, sources, id);
    }
  }

  // ---------------------------------------------------------------- running it again

  lemma {:induction false} PlacedAgain(mint: Mint, db: Content, rooms: seq<Room>)
    requires forall i :: 0 <= i < |rooms| ==> rooms[i].key in db.keys
    ensures var p := PlaceAll(mint, db, rooms);
            p.Some? && p.value.rooms == db.rooms && p.value.keys == db.keys && p.value.added == {}
  {
    if rooms != [] {
      PlacedAgain(mint, db, rooms[..|rooms| - 1]);
    }
  }

  lemma {:induction false} LinkedAgain(p: Placing, mint: Mint, rooms: seq<Room>)
    requires Known(p, rooms) && p.added == {}
    ensures LinkAll(p, mint, rooms) == Some(p.rooms)
  {
    if rooms != [] {
      var room := rooms[|rooms| - 1];
      KnownPrefix(p, rooms, |rooms| - 1);
      LinkedAgain(p, mint, rooms[..|rooms| - 1]);
      assert Wanted(p, room) == map[];
      var id := p.ids[room.key];
      assert p.rooms[id := Linked(p, mint, room, p.rooms[id])] == p.rooms;
    }
  }

  lemma {:induction false} MonstersThere(db: map<string, MonsterRow>, mint: Mint, ids: map<string, nat>, monsters: seq<Monster>)
    requires forall m :: m in monsters ==> m.room in ids
    ensures forall m :: m in monsters ==> m.key in WithMonsters(db, mint, ids, monsters)
    ensures forall k :: k in db ==> k in WithMonsters(db, mint, ids, monsters) && WithMonsters(db, mint, ids, monsters)[k] == db[k]
    ensures (forall m :: m in monsters ==> m.key in db) ==> WithMonsters(db, mint, ids, monsters) == db
  {
    if monsters != [] {
      MonstersThere(db, mint, ids, monsters[..|monsters| - 1]);
      assert monsters == monsters[..|monsters| - 1] + [monsters[|monsters| - 1]];
    }
  }

  lemma BundledThere(db: Scripts, id: nat, name: string, source: string)
    ensures var after := Bundled(db, id, name, source);
            && id in after.scripts && (id in db.scripts ==> after == db)
            && forall i :: i in db.scripts ==> i in after.scripts && after.scripts[i] == db.scripts[i]
  {
  }

  lemma {:induction false} ScriptsThere(db: Scripts, mint: Mint, sources: seq<(string, string)>)
    ensures forall s :: s in sources ==> mint.script(s.0) in WithScripts(db, mint, sources).scripts
    ensures forall i :: i in db.scripts ==>
              i in WithScripts(db, mint, sources).scripts && WithScripts(db, mint, sources).scripts[i] == db.scripts[i]
    ensures (forall s :: s in sources ==> mint.script(s.0) in db.scripts) ==> WithScripts(db, mint, sources) == db
  {
    if sources != [] {
      var n := |sources| - 1;
      BundledThere(WithScripts(db, mint, sources[..n]), mint.script(sources[n].0), "world_" + sources[n].0, sources[n].1);
      hide Bundled;
      ScriptsThere(db, mint, sources[..|sources| - 1]);
      assert sources == sources[..|sources| - 1] + [sources[|sources| - 1]];
    }
  }

  // Running the same pack again is the identity on rooms, links, scripts, their history
  // and monsters.
  lemma InstallTwice(mint: Mint, later: Mint, db: Content, pack: Pack)
    requires PackOk(pack) && KeysOk(db.rooms, db.keys) && MintOk(mint, db, pack.rooms) && later.script == mint.script
    ensures Installation(mint, db, pack).Some? ==>
              var after := Installation(mint, db, pack).value;
              KeysOk(after.rooms, after.keys)
              && (MintOk(later, after, pack.rooms) ==> Installation(later, after, pack) == Some(after))
  {
    if Installation(mint, db, pack).Some? {
      ConservativeExtension(mint, db, pack);
      if MintOk(later, Installation(mint, db, pack).value, pack.rooms) {
        InstalledTwice(mint, later, db, pack);
      }
    }
  }

  lemma InstalledTwice(mint: Mint, later: Mint, db: Content, pack: Pack)
    requires PackOk(pack) && KeysOk(db.rooms, db.keys) && MintOk(mint, db, pack.rooms) && Installation(mint, db, pack).Some?
    requires var after := Installation(mint, db, pack).value;
             KeysOk(after.rooms, after.keys) && MintOk(later, after, pack.rooms) && later.script == mint.script
    ensures var after := Installation(mint, db, pack).value;
            Installation(later, after, pack) == Some(after)
  {
    var p := InstalledRows(mint, db, pack);
    var after := Installation(mint, db, pack).value;
    forall i | 0 <= i < |pack.rooms|
      ensures pack.rooms[i].key in after.keys
    {
      assert pack.rooms[i].key in p.ids;
    }
    PlacedKnown(p, mint, db, pack);
    MonstersThere(db.monsters, mint, p.ids, pack.monsters);
    ScriptsThere(db.scripts, mint, pack.sources);
    assert after.monsters == WithMonsters(db.monsters, mint, p.ids, pack.monsters);
    assert after.scripts == WithScripts(db.scripts, mint, pack.sources);
    Again(later, after, pack);
  }

  // A pack whose keys are all installed changes nothing, whatever operators have made of
  // its rooms, scripts and monsters since.
  lemma Again(mint: Mint, db: Content, pack: Pack)
    requires PackOk(pack) && KeysOk(db.rooms, db.keys) && MintOk(mint, db, pack.rooms)
    requires forall i :: 0 <= i < |pack.rooms| ==> pack.rooms[i].key in db.keys
    requires forall m :: m in pack.monsters ==> m.key in db.monsters
    requires forall s :: s in pack.sources ==> mint.script(s.0) in db.scripts.scripts
    ensures Installation(mint, db, pack) == Some(db)
  {
    hide Known, MintOk, KeysOk, WithMonsters, WithScripts, Placed;
    PlacedAgain(mint, db, pack.rooms);
    var p := PlaceAll(mint, db, pack.rooms).value;
    PlaceAllKeeps(mint, db, pack.rooms);
    PlacedKnown(p, mint, db, pack);
    LinkedAgain(p, mint, pack.rooms);
    MonstersThere(db.monsters, mint, p.ids, pack.monsters);
    ScriptsThere(db.scripts, mint, pack.sources);
  }

  lemma DistinctRooms(plan: Plan, rooms: seq<Room>)
    requires PlanOk(plan) && Installed(plan, plan.links, rooms)
    ensures forall i, j :: 0 <= i < j < |rooms| ==> rooms[i].key != rooms[j].key
  {
    hide WorldPlan.Leads;
  }

  // What the world builder accepts is a pack the installer can take.
  lemma BuiltPack(plan: Plan, rooms: seq<Room>, sources: seq<(string, string)>)
    requires PlanOk(plan) && Acceptable(plan) && Installed(plan, plan.links, rooms)
    ensures PackOk(Pack(rooms, plan.monsters, sources))
  {
    AcceptedWorld(plan, rooms);
    forall m | m in plan.monsters
      ensures HasRoom(rooms, m.room)
    {
      assert MonsterPlaced(plan, m);
      var i :| 0 <= i < |plan.rooms| && plan.rooms[i].key == m.room;
      assert rooms[i].key == m.room;
    }
    DistinctRooms(plan, rooms);
    hide Returns, Joined;
  }
}
