// `evaluateWorld` as it runs (internal/scripting/world.go): builtins append to the
// definition, links write exits in place, and a recursive search fills `seen`.
module WorldBuilder {
  import opened Wrappers
  import opened WorldPlan

  lemma FreeSlots(p: Plan, links: seq<Link>, k: nat, rooms: seq<Room>, a: nat, b: nat)
    requires PlanOk(p) && k < |links| && Installed(p, links[..k], rooms)
    requires a < |rooms| && b < |rooms| && rooms[a].key == links[k].from && rooms[b].key == links[k].to
    requires links[k].direction in rooms[a].exits || Opposite(links[k].direction) in rooms[b].exits
    ensures !NoOverwrite(links)
  {
    var l := links[k];
    var (x, d) := if l.direction in rooms[a].exits then Slot(l) else Return(l);
    var i := if l.direction in rooms[a].exits then a else b;
    var y := rooms[i].exits[d];
    assert Leads(links[..k], x, d, y);
    var m :| m in links[..k] && (m == Link(x, d, y) || m == Link(y, Opposite(d), x));
    var n :| 0 <= n < k && links[n] == m;
    assert Slot(m) == (x, d) || Return(m) == (x, d);
  }

  lemma LeadsNext(links: seq<Link>, k: nat, x: string, d: Direction, y: string)
    requires k < |links|
    ensures Leads(links[..k + 1], x, d, y) <==>
            Leads(links[..k], x, d, y) || links[k] == Link(x, d, y) || links[k] == Link(y, Opposite(d), x)
  {
    var before, after := links[..k], links[..k + 1];
    assert after == before + [links[k]];
    assert forall l :: l in after <==> l in before || l == links[k];
    if Leads(after, x, d, y) {
      var l :| l in after && (l == Link(x, d, y) || l == Link(y, Opposite(d), x));
      assert l in before || l == links[k];
    }
    if links[k] == Link(x, d, y) || links[k] == Link(y, Opposite(d), x) {
      assert links[k] in after;
    }
  }

  function SetExit(rooms: seq<Room>, i: nat, d: Direction, key: string): (r: seq<Room>)
    requires i < |rooms|
    ensures |r| == |rooms|
  {
    rooms[i := rooms[i].(exits := rooms[i].exits[d := key])]
  }

  // The two exits of a link that overwrites nothing.
  ghost predicate Fits(links: seq<Link>, k: nat, rooms: seq<Room>, a: nat, b: nat) {
    && k < |links| && a < |rooms| && b < |rooms| && a != b
    && rooms[a].key == links[k].from && rooms[b].key == links[k].to
    && links[k].direction !in rooms[a].exits && Opposite(links[k].direction) !in rooms[b].exits
  }

  function Joint(rooms: seq<Room>, l: Link, a: nat, b: nat): (r: seq<Room>)
    requires a < |rooms| && b < |rooms|
    ensures |r| == |rooms|
  {
    SetExit(SetExit(rooms, a, l.direction, l.to), b, Opposite(l.direction), l.from)
  }

  lemma InstallNext(p: Plan, links: seq<Link>, k: nat, rooms: seq<Room>, a: nat, b: nat)
    requires PlanOk(p) && Fits(links, k, rooms, a, b) && Installed(p, links[..k], rooms) && NoOverwrite(links[..k])
    ensures Installed(p, links[..k + 1], Joint(rooms, links[k], a, b)) && NoOverwrite(links[..k + 1])
    ensures ExitCount(Joint(rooms, links[k], a, b)) == ExitCount(rooms) + 2
  {
    var l := links[k];
    CountExit(rooms, a, l.direction, l.to);
    CountExit(SetExit(rooms, a, l.direction, l.to), b, Opposite(l.direction), l.from);
    hide NoOverwrite, Installed, ExitCount, PlanOk;
    ExitsNext(p, links, k, rooms, a, b);
    SlotsNext(p, links, k, rooms, a, b);
  }

  lemma ExitsNext(p: Plan, links: seq<Link>, k: nat, rooms: seq<Room>, a: nat, b: nat)
    requires PlanOk(p) && Fits(links, k, rooms, a, b) && Installed(p, links[..k], rooms)
    ensures Installed(p, links[..k + 1], Joint(rooms, links[k], a, b))
  {
    var l := links[k];
    var linked := Joint(rooms, l, a, b);
    forall i, d, y {:trigger Leads(links[..k + 1], linked[i].key, d, y)} | 0 <= i < |linked|
      ensures (d in linked[i].exits && linked[i].exits[d] == y) <==> Leads(links[..k + 1], linked[i].key, d, y)
    {
      LeadsNext(links, k, rooms[i].key, d, y);
      assert (d in rooms[i].exits && rooms[i].exits[d] == y) <==> Leads(links[..k], rooms[i].key, d, y);
      assert rooms[i].key == p.rooms[i].key && rooms[a].key == p.rooms[a].key && rooms[b].key == p.rooms[b].key;
      hide Leads, Installed;
    }
  }

  lemma SlotsNext(p: Plan, links: seq<Link>, k: nat, rooms: seq<Room>, a: nat, b: nat)
    requires Fits(links, k, rooms, a, b) && Installed(p, links[..k], rooms) && NoOverwrite(links[..k])
    ensures NoOverwrite(links[..k + 1])
  {
    var l := links[k];
    forall n | 0 <= n < k
      ensures Slot(links[n]) != Slot(l) && Slot(links[n]) != Return(l) && Return(links[n]) != Slot(l) && Return(links[n]) != Return(l)
    {
      var m := links[n];
      assert m in links[..k];
      assert Leads(links[..k], m.from, m.direction, m.to) && Leads(links[..k], m.to, Opposite(m.direction), m.from);
      TakenSlot(p, links[..k], rooms, a, l.direction, m);
      TakenSlot(p, links[..k], rooms, b, Opposite(l.direction), m);
    }
    assert forall n :: 0 <= n < k ==> links[..k + 1][n] == links[n] == links[..k][n];
  }

  lemma TakenSlot(p: Plan, links: seq<Link>, rooms: seq<Room>, i: nat, d: Direction, m: Link)
    requires Installed(p, links, rooms) && i < |rooms| && m in links && d !in rooms[i].exits
    ensures Slot(m) != (rooms[i].key, d) && Return(m) != (rooms[i].key, d)
  {
    if Slot(m) == (rooms[i].key, d) {
      assert Leads(links, rooms[i].key, d, m.to);
    }
    if Return(m) == (rooms[i].key, d) {
      assert Leads(links, rooms[i].key, d, m.from);
    }
  }

  lemma {:induction false} CountExit(rooms: seq<Room>, i: nat, d: Direction, key: string)
    requires i < |rooms| && d !in rooms[i].exits
    ensures ExitCount(SetExit(rooms, i, d, key)) == ExitCount(rooms) + 1
  {
    var n := |rooms| - 1;
    var after := SetExit(rooms, i, d, key);
    if i == n {
      assert after[..n] == rooms[..n];
    } else {
      assert after[..n] == SetExit(rooms[..n], i, d, key);
      CountExit(rooms[..n], i, d, key);
    }
  }

  lemma {:induction false} CountBare(rooms: seq<Room>)
    requires forall i :: 0 <= i < |rooms| ==> rooms[i].exits == map[]
    ensures ExitCount(rooms) == 0
  {
    if rooms != [] {
      CountBare(rooms[..|rooms| - 1]);
    }
  }

  lemma NothingInstalled(p: Plan)
    requires PlanOk(p)
    ensures Installed(p, [], p.rooms) && NoOverwrite([]) && ExitCount(p.rooms) == 0
  {
    CountBare(p.rooms);
  }

  class Builder {
    var rooms: seq<Room>
    var indexes: map<string, nat>
    var monsters: seq<Monster>
    var monsterKeys: set<string>
    var edges: seq<Link>
    var seen: set<string>

    ghost function View(): Plan
      reads this
    {
      Plan(rooms, monsters, edges)
    }

    // `indexes` finds every room by its key, and nothing else.
    ghost predicate Indexed()
      reads this
    {
      && (forall k :: k in indexes ==> indexes[k] < |rooms| && rooms[indexes[k]].key == k)
      && (forall i :: 0 <= i < |rooms| ==> rooms[i].key in indexes && indexes[rooms[i].key] == i)
    }

    ghost predicate Valid()
      reads this
    {
      && Indexed() && PlanOk(View())
      && (forall k :: k in monsterKeys <==> HasMonster(monsters, k))
    }

    constructor ()
      ensures Valid() && View() == Plan([], [], [])
    {
      rooms, indexes, monsters, monsterKeys, edges, seen := [], map[], [], {}, [], {};
    }

    // One builtin call of the script.
    method Invoke(call: Call) returns (ok: bool)
      requires Valid()
      modifies this
      ensures Valid()
      ensures ok <==> Declare(old(View()), call).Some?
      ensures View() == if ok then Declare(old(View()), call).value else old(View())
    {
      hide RoomOk, MonsterOk;
      match call {
        case DefineRoom(r) =>
          if !RoomOk(r) || r.key in indexes || |rooms| >= ROOM_LIMIT {
            return false;
          }
          indexes := indexes[r.key := |rooms|];
          rooms := rooms + [r.(exits := map[])];
        case DefineMonster(m) =>
          if !MonsterOk(m) || m.key in monsterKeys || |monsters| >= MONSTER_LIMIT {
            return false;
          }
          monsterKeys := monsterKeys + {m.key};
          monsters := monsters + [m];
          assert forall k :: HasMonster(monsters, k) <==> HasMonster(old(monsters), k) || k == m.key by {
            assert monsters[|old(monsters)|] == m;
            assert forall i :: 0 <= i < |old(monsters)| ==> monsters[i] == old(monsters)[i];
          }
        case DefineLink(from, direction, to) =>
          if direction.None? || from == to || |edges| >= LINK_LIMIT {
            return false;
          }
          edges := edges + [Link(from, direction.value, to)];
      }
      return true;
    }

    method PlaceMonsters() returns (ok: bool)
      requires Valid()
      ensures ok <==> forall m :: m in monsters ==> MonsterPlaced(View(), m)
    {
      var i := 0;
      while i < |monsters|
        invariant 0 <= i <= |monsters|
        invariant forall n :: 0 <= n < i ==> MonsterPlaced(View(), monsters[n])
      {
        var m := monsters[i];
        if m.room !in indexes || rooms[indexes[m.room]].kind !in {"dungeon", "normal"} {
          assert !MonsterPlaced(View(), m);
          return false;
        }
        i := i + 1;
      }
      return true;
    }

    // Writes both exits of one link, unless a room is unknown or an exit is occupied.
    method InstallLink(k: nat, ghost p: Plan) returns (ok: bool)
      requires k < |edges| && Indexed() && PlanOk(p) && edges[k] in p.links
      requires Installed(p, edges[..k], rooms) && NoOverwrite(edges[..k])
      modifies this`rooms
      ensures ok ==> HasRoom(p.rooms, edges[k].from) && HasRoom(p.rooms, edges[k].to)
                     && Indexed() && Installed(p, edges[..k + 1], rooms) && NoOverwrite(edges[..k + 1])
                     && ExitCount(rooms) == ExitCount(old(rooms)) + 2
      ensures !ok ==> !(HasRoom(p.rooms, edges[k].from) && HasRoom(p.rooms, edges[k].to)) || !NoOverwrite(edges)
    {
      hide NoOverwrite, Installed, ExitCount, HasRoom;
      var e := edges[k];
      Known(p, edges[..k], e.from);
      Known(p, edges[..k], e.to);
      if e.from !in indexes || e.to !in indexes {
        return false;
      }
      var a, b := indexes[e.from], indexes[e.to];
      if e.direction in rooms[a].exits || Opposite(e.direction) in rooms[b].exits {
        FreeSlots(p, edges, k, rooms, a, b);
        return false;
      }
      InstallNext(p, edges, k, rooms, a, b);
      rooms := SetExit(rooms, a, e.direction, e.to);
      rooms := SetExit(rooms, b, Opposite(e.direction), e.from);
      return true;
    }

    // Writes the exits of every link; a link that would overwrite an exit is an error.
    method InstallLinks() returns (ok: bool)
      requires Valid()
      modifies this`rooms
      ensures ok <==> (forall l :: l in edges ==> HasRoom(old(rooms), l.from) && HasRoom(old(rooms), l.to)) && NoOverwrite(edges)
      ensures ok ==> Indexed() && Installed(old(View()), edges, rooms) && ExitCount(rooms) == 2 * |edges|
    {
      ghost var p := View();
      hide NoOverwrite, Installed, ExitCount, PlanOk, HasRoom, HasMonster;
      NothingInstalled(p);
      var k := 0;
      assert edges[..0] == [];
      while k < |edges|
        invariant 0 <= k <= |edges| && Indexed()
        invariant forall n :: 0 <= n < k ==> HasRoom(p.rooms, edges[n].from) && HasRoom(p.rooms, edges[n].to)
        invariant NoOverwrite(edges[..k]) && Installed(p, edges[..k], rooms) && ExitCount(rooms) == 2 * k
      {
        assert edges[k] in p.links;
        var linked := InstallLink(k, p);
        if !linked {
          return false;
        }
        k := k + 1;
      }
      assert edges[..k] == edges;
      return true;
    }

    // The index finds exactly the rooms of the plan, before and after links are written.
    lemma Known(p: Plan, links: seq<Link>, key: string)
      requires Indexed() && Installed(p, links, rooms)
      ensures key in indexes <==> HasRoom(p.rooms, key)
    {
      if key in indexes {
        assert p.rooms[indexes[key]].key == key;
      }
      if HasRoom(p.rooms, key) {
        var i :| 0 <= i < |p.rooms| && p.rooms[i].key == key;
        assert rooms[i].key == key;
      }
    }

    // The recursive search. Exits are taken in an arbitrary order, so what `Visit`
    // ensures holds for every order a map may be ranged over.
    method Visit(key: string, ghost root: string)
      requires Indexed() && key in indexes && seen <= indexes.Keys && Joined(ExitEdges(rooms), root, key)
      requires forall i, d :: 0 <= i < |rooms| && d in rooms[i].exits ==> rooms[i].exits[d] in indexes
      modifies this`seen
      ensures old(seen) + {key} <= seen <= indexes.Keys
      ensures forall x, y :: x in seen && x !in old(seen) && (x, y) in ExitEdges(rooms) ==> y in seen
      ensures forall x :: x in seen && x !in old(seen) ==> Joined(ExitEdges(rooms), root, x)
      decreases indexes.Keys - seen
    {
      if key in seen {
        return;
      }
      seen := seen + {key};
      var exits := rooms[indexes[key]].exits;
      var todo := exits.Keys;
      ghost var e := ExitEdges(rooms);
      hide Joined;
      while todo != {}
        invariant todo <= exits.Keys && old(seen) + {key} <= seen <= indexes.Keys
        invariant forall d :: d in exits && d !in todo ==> exits[d] in seen
        invariant forall x, y :: x in seen && x !in old(seen) && x != key && (x, y) in e ==> y in seen
        invariant forall x :: x in seen && x !in old(seen) ==> Joined(e, root, x)
        decreases todo
      {
        var d :| d in todo;
        assert (key, exits[d]) in e by {
          var i := indexes[key];
          assert rooms[i].key == key && d in rooms[i].exits;
        }
        StepOn(e, root, key, exits[d]);
        ghost var before := seen;
        Visit(exits[d], root);
        todo := todo - {d};
      }
      forall y | (key, y) in e
        ensures y in seen
      {
        var i, d :| 0 <= i < |rooms| && d in rooms[i].exits && rooms[i].key == key && rooms[i].exits[d] == y;
        assert i == indexes[key];
      }
    }

    // The search from the first room marks exactly the rooms that can be reached.
    method Search()
      requires Indexed() && rooms != []
      requires forall i, d :: 0 <= i < |rooms| && d in rooms[i].exits ==> rooms[i].exits[d] in indexes
      modifies this`seen
      ensures seen <= indexes.Keys
      ensures forall x :: x in seen <==> Joined(ExitEdges(rooms), rooms[0].key, x)
    {
      seen := {};
      JoinedSelf(ExitEdges(rooms), rooms[0].key);
      Visit(rooms[0].key, rooms[0].key);
      forall x | Joined(ExitEdges(rooms), rooms[0].key, x)
        ensures x in seen
      {
        var path :| Walk(ExitEdges(rooms), path) && path[0] == rooms[0].key && path[|path| - 1] == x;
        WalkStays(ExitEdges(rooms), seen, path);
      }
    }

    // As many marked keys as rooms: every room is marked.
    lemma AllSeen()
      requires Indexed() && seen <= indexes.Keys
      ensures |seen| == |rooms| <==> forall i :: 0 <= i < |rooms| ==> rooms[i].key in seen
    {
      IndexSize(rooms, indexes);
      if |seen| == |rooms| {
        Cardinality(seen, indexes.Keys);
      } else if seen == indexes.Keys {
        assert false;
      }
    }

    static lemma Cardinality(a: set<string>, b: set<string>)
      requires a <= b && |a| == |b|
      ensures a == b
    {
      assert |b - a| == |b| - |a|;
    }

    static lemma {:induction false} IndexSize(rooms: seq<Room>, indexes: map<string, nat>)
      requires forall k :: k in indexes ==> indexes[k] < |rooms| && rooms[indexes[k]].key == k
      requires forall i :: 0 <= i < |rooms| ==> rooms[i].key in indexes && indexes[rooms[i].key] == i
      ensures |indexes.Keys| == |rooms|
      decreases |rooms|
    {
      if rooms == [] {
        assert indexes.Keys == {};
      } else {
        var n := |rooms| - 1;
        var fewer := indexes - {rooms[n].key};
        IndexSize(rooms[..n], fewer);
        assert indexes.Keys == fewer.Keys + {rooms[n].key};
      }
    }

    // The checks after the script has run, in the order the source makes them.
    method Finish() returns (ok: bool)
      requires Valid()
      modifies this`rooms, this`seen
      ensures ok <==> Acceptable(old(View()))
      ensures ok ==> Installed(old(View()), edges, rooms) && ExitCount(rooms) == 2 * |edges|
    {
      hide HasRoom, NoOverwrite, Connected, MonsterPlaced, ExitCount;
      ghost var p := View();
      var placed := PlaceMonsters();
      if !placed {
        return false;
      }
      var linked := InstallLinks();
      if !linked {
        return false;
      }
      if |rooms| == 0 {
        NoRooms(LinkEdges(p.links));
        return false;
      }
      ok := AllReached(p);
    }

    static lemma NoRooms(e: Edges)
      ensures !Connected([], e)
    {
    }

    // Whether the search from the first room marks every room.
    method AllReached(ghost p: Plan) returns (ok: bool)
      requires Indexed() && rooms != [] && Installed(p, p.links, rooms)
      requires forall l :: l in p.links ==> HasRoom(p.rooms, l.from) && HasRoom(p.rooms, l.to)
      modifies this`seen
      ensures ok <==> Connected(p.rooms, LinkEdges(p.links))
    {
      EdgesAgree(p, rooms);
      ExitsKnown(p, rooms);
      SameKeys(p, rooms);
      hide Installed, HasRoom, Joined, LinkEdges, ExitEdges;
      Search();
      AllSeen();
      ok := |seen| == |rooms|;
    }

    static lemma SameKeys(p: Plan, rooms: seq<Room>)
      requires Installed(p, p.links, rooms)
      ensures |p.rooms| == |rooms| && forall i :: 0 <= i < |rooms| ==> p.rooms[i].key == rooms[i].key
      ensures forall k :: HasRoom(rooms, k) <==> HasRoom(p.rooms, k)
    {
      hide Leads;
    }

    static lemma ExitsKnown(p: Plan, rooms: seq<Room>)
      requires Installed(p, p.links, rooms)
      requires forall l :: l in p.links ==> HasRoom(p.rooms, l.from) && HasRoom(p.rooms, l.to)
      ensures forall i, d :: 0 <= i < |rooms| && d in rooms[i].exits ==> HasRoom(rooms, rooms[i].exits[d])
    {
      forall i, d | 0 <= i < |rooms| && d in rooms[i].exits
        ensures HasRoom(rooms, rooms[i].exits[d])
      {
        var y := rooms[i].exits[d];
        assert Leads(p.links, rooms[i].key, d, y);
        assert HasRoom(p.rooms, y);
        var j :| 0 <= j < |p.rooms| && p.rooms[j].key == y;
        assert rooms[j].key == y;
      }
    }
  }

  // A world script either fails or yields exactly the world it declares.
  method EvaluateWorld(calls: seq<Call>) returns (world: Option<seq<Room>>, monsters: seq<Monster>)
    ensures world.Some? <==> Declared(calls).Some? && Acceptable(Declared(calls).value)
    ensures world.Some? ==>
              var p := Declared(calls).value;
              && monsters == p.monsters && Installed(p, p.links, world.value)
              && ExitCount(world.value) == 2 * |p.links|
    ensures world.Some? ==>
              forall i, j :: 0 <= i < |world.value| && 0 <= j < |world.value| ==>
                Joined(ExitEdges(world.value), world.value[i].key, world.value[j].key)
    ensures world.Some? ==> forall i, d :: 0 <= i < |world.value| && d in world.value[i].exits ==> WayBack(world.value, i, d)
  {
    hide Declare, Acceptable, Installed;
    var b := new Builder();
    var i := 0;
    assert Declared(calls[..0]) == Some(Plan([], [], []));
    while i < |calls|
      invariant 0 <= i <= |calls| && b.Valid() && fresh(b) && Declared(calls[..i]) == Some(b.View())
    {
      assert calls[..i + 1][..i] == calls[..i];
      var ok := b.Invoke(calls[i]);
      if !ok {
        DeclaredStops(calls, i + 1);
        return None, [];
      }
      i := i + 1;
    }
    assert calls[..i] == calls;
    var accepted := b.Finish();
    if !accepted {
      return None, [];
    }
    ScriptWorld(calls, b.rooms);
    return Some(b.rooms), b.monsters;
  }
}
