// What a world script declares and which declarations make a world
// (internal/scripting/world.go). The script itself is an arbitrary series of calls.
module WorldPlan {
  import opened Wrappers

  const ROOM_LIMIT := 96
  const LINK_LIMIT := 192
  const MONSTER_LIMIT := 32

  datatype Direction = North | South | East | West | Up | Down

  function Opposite(d: Direction): Direction {
    match d
    case North => South
    case South => North
    case East => West
    case West => East
    case Up => Down
    case Down => Up
  }

  // The step a direction takes: east, north and up.
  function Step(d: Direction): (int, int, int) {
    match d
    case North => (0, 1, 0)
    case South => (0, -1, 0)
    case East => (1, 0, 0)
    case West => (-1, 0, 0)
    case Up => (0, 0, 1)
    case Down => (0, 0, -1)
  }

  // Going in direction e undoes going in direction d.
  predicate Undoes(e: Direction, d: Direction) {
    Step(e).0 == -Step(d).0 && Step(e).1 == -Step(d).1 && Step(e).2 == -Step(d).2
  }

  // The opposite is the one direction that leads back.
  lemma OppositeUndoes(d: Direction, e: Direction)
    ensures Undoes(e, d) <==> e == Opposite(d)
  {
  }

  datatype Room = Room(key: string, name: string, description: string, kind: string, script: string,
                       exits: map<Direction, string>)

  datatype Monster = Monster(
    key: string, room: string, name: string, description: string, loot: string,
    health: int, attack: int, defense: int, gold: int, experience: int, respawn: int, drop: int)

  datatype Link = Link(from: string, direction: Direction, to: string)

  // One call of a builtin. A direction that is none of the six is None.
  datatype Call =
    | DefineRoom(room: Room)
    | DefineMonster(monster: Monster)
    | DefineLink(from: string, direction: Option<Direction>, to: string)

  datatype Plan = Plan(rooms: seq<Room>, monsters: seq<Monster>, links: seq<Link>)

  // ---------------------------------------------------------------- text

  predicate IsKey(s: string) {
    && 1 <= |s| <= 40 && 'a' <= s[0] <= 'z'
    && forall i :: 0 <= i < |s| ==> 'a' <= s[i] <= 'z' || '0' <= s[i] <= '9' || s[i] == '_'
  }

  predicate IsSpace(c: char) {
    var n := c as int;
    9 <= n <= 13 || 0x2000 <= n <= 0x200A
    || n in {0x20, 0x85, 0xA0, 0x1680, 0x2028, 0x2029, 0x202F, 0x205F, 0x3000}
  }

  predicate IsControl(c: char) {
    c as int < 0x20 || 0x7F <= c as int < 0xA0
  }

  // Bytes of a text in UTF-8.
  function ByteLength(s: string): nat {
    if s == [] then 0
    else
      var n := s[0] as int;
      (if n < 0x80 then 1 else if n < 0x800 then 2 else if n < 0x1_0000 then 3 else 4) + ByteLength(s[1..])
  }

  predicate Clean(s: string, limit: nat) {
    (exists c :: c in s && !IsSpace(c)) && ByteLength(s) <= limit && forall c :: c in s ==> !IsControl(c)
  }

  // ---------------------------------------------------------------- declarations

  predicate RoomOk(r: Room) {
    && IsKey(r.key) && Clean(r.name, 100) && Clean(r.description, 512) && (r.script == "" || IsKey(r.script))
    && r.kind in {"normal", "safe", "shop", "inn", "dungeon"}
  }

  predicate MonsterOk(m: Monster) {
    && IsKey(m.key) && IsKey(m.room) && Clean(m.name, 100) && Clean(m.description, 512)
    && (m.loot == "" || Clean(m.loot, 100))
    && 1 <= m.health <= 1000 && 1 <= m.attack <= 100 && 0 <= m.defense <= 50 && 0 <= m.gold <= 100
    && 0 <= m.experience <= 1000 && 30 <= m.respawn <= 3600 && 0 <= m.drop <= 10000
    && (m.loot == "" <==> m.drop == 0)
  }

  predicate HasRoom(rooms: seq<Room>, key: string) {
    exists i :: 0 <= i < |rooms| && rooms[i].key == key
  }

  predicate HasMonster(monsters: seq<Monster>, key: string) {
    exists i :: 0 <= i < |monsters| && monsters[i].key == key
  }

  // What one call adds to the plan, or None when the builtin raises an error.
  function Declare(p: Plan, call: Call): Option<Plan> {
    match call
    case DefineRoom(r) =>
      if RoomOk(r) && !HasRoom(p.rooms, r.key) && |p.rooms| < ROOM_LIMIT
      then Some(p.(rooms := p.rooms + [r.(exits := map[])])) else None
    case DefineMonster(m) =>
      if MonsterOk(m) && !HasMonster(p.monsters, m.key) && |p.monsters| < MONSTER_LIMIT
      then Some(p.(monsters := p.monsters + [m])) else None
    case DefineLink(from, direction, to) =>
      if direction.Some? && from != to && |p.links| < LINK_LIMIT
      then Some(p.(links := p.links + [Link(from, direction.value, to)])) else None
  }

  // The plan a script declares: its first failing call ends it.
  function Declared(calls: seq<Call>): Option<Plan> {
    if calls == [] then Some(Plan([], [], []))
    else
      var before := Declared(calls[..|calls| - 1]);
      if before.None? then None else Declare(before.value, calls[|calls| - 1])
  }

  // Rooms still bare of exits and with distinct keys; links between distinct rooms.
  ghost predicate PlanOk(p: Plan) {
    && (forall i :: 0 <= i < |p.rooms| ==> p.rooms[i].exits == map[])
    && (forall i, j :: 0 <= i < j < |p.rooms| ==> p.rooms[i].key != p.rooms[j].key)
    && (forall l :: l in p.links ==> l.from != l.to)
    && |p.rooms| <= ROOM_LIMIT && |p.links| <= LINK_LIMIT && |p.monsters| <= MONSTER_LIMIT
  }

  lemma {:induction false} DeclaredOk(calls: seq<Call>)
    ensures Declared(calls).Some? ==> PlanOk(Declared(calls).value)
  {
    hide RoomOk, MonsterOk;
    if calls != [] {
      DeclaredOk(calls[..|calls| - 1]);
    }
  }

  lemma {:induction false} DeclaredStops(calls: seq<Call>, n: nat)
    requires n <= |calls| && Declared(calls[..n]).None?
    ensures Declared(calls).None?
    decreases |calls|
  {
    if n == |calls| {
      assert calls[..n] == calls;
    } else {
      assert calls[..|calls| - 1][..n] == calls[..n];
      DeclaredStops(calls[..|calls| - 1], n);
    }
  }

  // ---------------------------------------------------------------- acceptance

  predicate MonsterPlaced(p: Plan, m: Monster) {
    exists i :: 0 <= i < |p.rooms| && p.rooms[i].key == m.room && p.rooms[i].kind in {"dungeon", "normal"}
  }

  function Slot(l: Link): (string, Direction) {
    (l.from, l.direction)
  }

  function Return(l: Link): (string, Direction) {
    (l.to, Opposite(l.direction))
  }

  // No exit is declared twice, whichever side of a link declares it.
  ghost predicate NoOverwrite(links: seq<Link>) {
    forall i, j :: 0 <= i < j < |links| ==>
      Slot(links[i]) != Slot(links[j]) && Return(links[i]) != Return(links[j])
      && Slot(links[i]) != Return(links[j]) && Return(links[i]) != Slot(links[j])
  }

  type Edges = set<(string, string)>

  // Both directions of every link.
  function LinkEdges(links: seq<Link>): Edges {
    (set l | l in links :: (l.from, l.to)) + (set l | l in links :: (l.to, l.from))
  }

  ghost predicate Walk(e: Edges, path: seq<string>) {
    |path| >= 1 && forall i :: 0 <= i < |path| - 1 ==> (path[i], path[i + 1]) in e
  }

  ghost predicate Joined(e: Edges, x: string, y: string) {
    exists path :: Walk(e, path) && path[0] == x && path[|path| - 1] == y
  }

  // Only the walks from the first room matter: the search starts there.
  ghost predicate Connected(rooms: seq<Room>, e: Edges) {
    rooms != [] && forall i :: 0 <= i < |rooms| ==> Joined(e, rooms[0].key, rooms[i].key)
  }

  // What makes a plan a world.
  ghost predicate Acceptable(p: Plan) {
    && (forall m :: m in p.monsters ==> MonsterPlaced(p, m))
    && (forall l :: l in p.links ==> HasRoom(p.rooms, l.from) && HasRoom(p.rooms, l.to))
    && NoOverwrite(p.links)
    && Connected(p.rooms, LinkEdges(p.links))
  }

  // ---------------------------------------------------------------- the world built

  // The exit that leaves x in direction d leads to y.
  ghost predicate Leads(links: seq<Link>, x: string, d: Direction, y: string) {
    exists l :: l in links && (l == Link(x, d, y) || l == Link(y, Opposite(d), x))
  }

  // The rooms of the plan with exactly the exits that its links declare.
  ghost predicate Installed(p: Plan, links: seq<Link>, rooms: seq<Room>) {
    && |rooms| == |p.rooms|
    && (forall i :: 0 <= i < |rooms| ==> rooms[i] == p.rooms[i].(exits := rooms[i].exits))
    && (forall i, d, y :: 0 <= i < |rooms| ==>
          ((d in rooms[i].exits && rooms[i].exits[d] == y) <==> Leads(links, rooms[i].key, d, y)))
  }

  function ExitEdges(rooms: seq<Room>): Edges {
    set i, d | 0 <= i < |rooms| && d in rooms[i].exits :: (rooms[i].key, rooms[i].exits[d])
  }

  function ExitCount(rooms: seq<Room>): nat {
    if rooms == [] then 0 else ExitCount(rooms[..|rooms| - 1]) + |rooms[|rooms| - 1].exits|
  }

  lemma EdgesAgree(p: Plan, rooms: seq<Room>)
    requires Installed(p, p.links, rooms)
    requires forall l :: l in p.links ==> HasRoom(p.rooms, l.from) && HasRoom(p.rooms, l.to)
    ensures ExitEdges(rooms) == LinkEdges(p.links)
  {
    forall x, y
      ensures (x, y) in ExitEdges(rooms) <==> (x, y) in LinkEdges(p.links)
    {
      if (x, y) in ExitEdges(rooms) {
        var i, d :| 0 <= i < |rooms| && d in rooms[i].exits && rooms[i].key == x && rooms[i].exits[d] == y;
        assert Leads(p.links, rooms[i].key, d, y);
        var l :| l in p.links && (l == Link(x, d, y) || l == Link(y, Opposite(d), x));
      }
      if (x, y) in LinkEdges(p.links) {
        var l :| l in p.links && (l.from, l.to) in {(x, y), (y, x)};
        var d := if l.from == x && l.to == y then l.direction else Opposite(l.direction);
        assert l == Link(x, d, y) || l == Link(y, Opposite(d), x);
        assert Leads(p.links, x, d, y);
        var i :| 0 <= i < |p.rooms| && p.rooms[i].key == x;
        assert rooms[i].key == x;
        assert d in rooms[i].exits && rooms[i].exits[d] == y;
      }
    }
  }

  // ---------------------------------------------------------------- walks

  lemma StepOn(e: Edges, x: string, y: string, z: string)
    requires Joined(e, x, y) && (y, z) in e
    ensures Joined(e, x, z)
  {
    var path :| Walk(e, path) && path[0] == x && path[|path| - 1] == y;
    assert Walk(e, path + [z]);
  }

  lemma JoinedSelf(e: Edges, x: string)
    ensures Joined(e, x, x)
  {
    assert Walk(e, [x]);
  }

  lemma {:induction false} WalkStays(e: Edges, s: set<string>, path: seq<string>)
    requires Walk(e, path) && path[0] in s && forall x, y :: x in s && (x, y) in e ==> y in s
    ensures path[|path| - 1] in s
    decreases |path|
  {
    if |path| > 1 {
      WalkStays(e, s, path[1..]);
    }
  }

  lemma {:induction false} WalkBack(e: Edges, path: seq<string>)
    requires Walk(e, path) && forall x, y :: (x, y) in e ==> (y, x) in e
    ensures Joined(e, path[|path| - 1], path[0])
    decreases |path|
  {
    if |path| == 1 {
      JoinedSelf(e, path[0]);
    } else {
      WalkBack(e, path[1..]);
      StepOn(e, path[|path| - 1], path[1], path[0]);
    }
  }

  lemma JoinedThrough(e: Edges, x: string, y: string, z: string)
    requires Joined(e, x, y) && Joined(e, y, z)
    ensures Joined(e, x, z)
  {
    var p :| Walk(e, p) && p[0] == x && p[|p| - 1] == y;
    var q :| Walk(e, q) && q[0] == y && q[|q| - 1] == z;
    var r := p + q[1..];
    assert forall i :: |p| - 1 <= i < |r| ==> r[i] == q[i - |p| + 1];
    assert Walk(e, r);
  }

  // The exit of room i in direction d leads to another room, whose opposite exit leads back.
  ghost predicate Returns(rooms: seq<Room>, i: nat, d: Direction)
    requires i < |rooms| && d in rooms[i].exits
  {
    exists j :: 0 <= j < |rooms| && rooms[j].key == rooms[i].exits[d] && j != i
      && Opposite(d) in rooms[j].exits && rooms[j].exits[Opposite(d)] == rooms[i].key
  }

  // The exit of room i in direction d leads to another room, and one step of that room
  // undoes it: its exit in that direction leads back.
  ghost predicate WayBack(rooms: seq<Room>, i: nat, d: Direction)
    requires i < |rooms| && d in rooms[i].exits
  {
    exists j, e :: 0 <= j < |rooms| && rooms[j].key == rooms[i].exits[d] && j != i
      && Undoes(e, d) && e in rooms[j].exits && rooms[j].exits[e] == rooms[i].key
  }

  lemma ReturnsWayBack(rooms: seq<Room>, i: nat, d: Direction)
    requires i < |rooms| && d in rooms[i].exits && Returns(rooms, i, d)
    ensures WayBack(rooms, i, d)
  {
    var j :| 0 <= j < |rooms| && rooms[j].key == rooms[i].exits[d] && j != i
             && Opposite(d) in rooms[j].exits && rooms[j].exits[Opposite(d)] == rooms[i].key;
    OppositeUndoes(d, Opposite(d));
  }

  // An accepted world is strongly connected, and every exit has its way back, although
  // only the search from the first room was checked.
  lemma AcceptedWorld(p: Plan, rooms: seq<Room>)
    requires PlanOk(p) && Acceptable(p) && Installed(p, p.links, rooms)
    ensures forall i, j :: 0 <= i < |rooms| && 0 <= j < |rooms| ==> Joined(ExitEdges(rooms), rooms[i].key, rooms[j].key)
    ensures forall i, d :: 0 <= i < |rooms| && d in rooms[i].exits ==> Returns(rooms, i, d) && WayBack(rooms, i, d)
  {
    EdgesAgree(p, rooms);
    var e := ExitEdges(rooms);
    forall i, j | 0 <= i < |rooms| && 0 <= j < |rooms|
      ensures Joined(e, rooms[i].key, rooms[j].key)
    {
      assert Joined(e, p.rooms[0].key, p.rooms[i].key) && Joined(e, p.rooms[0].key, p.rooms[j].key);
      var path :| Walk(e, path) && path[0] == rooms[0].key && path[|path| - 1] == rooms[i].key;
      WalkBack(e, path);
      JoinedThrough(e, rooms[i].key, rooms[0].key, rooms[j].key);
    }
    forall i, d | 0 <= i < |rooms| && d in rooms[i].exits
      ensures Returns(rooms, i, d) && WayBack(rooms, i, d)
    {
      ExitReturns(p, rooms, i, d);
      ReturnsWayBack(rooms, i, d);
    }
  }

  // The same for any script, whatever calls it made.
  lemma ScriptWorld(calls: seq<Call>, rooms: seq<Room>)
    requires Declared(calls).Some?
    ensures var p := Declared(calls).value;
            Acceptable(p) && Installed(p, p.links, rooms) ==>
              && (forall i, j :: 0 <= i < |rooms| && 0 <= j < |rooms| ==> Joined(ExitEdges(rooms), rooms[i].key, rooms[j].key))
              && (forall i, d :: 0 <= i < |rooms| && d in rooms[i].exits ==> WayBack(rooms, i, d))
  {
    var p := Declared(calls).value;
    DeclaredOk(calls);
    hide Declared;
    if Acceptable(p) && Installed(p, p.links, rooms) {
      AcceptedWorld(p, rooms);
    }
  }

  lemma ExitReturns(p: Plan, rooms: seq<Room>, i: nat, d: Direction)
    requires PlanOk(p) && Installed(p, p.links, rooms) && i < |rooms| && d in rooms[i].exits
    requires forall l :: l in p.links ==> HasRoom(p.rooms, l.from) && HasRoom(p.rooms, l.to)
    ensures Returns(rooms, i, d)
  {
    var x, y := rooms[i].key, rooms[i].exits[d];
    assert Leads(p.links, x, d, y);
    var l :| l in p.links && (l == Link(x, d, y) || l == Link(y, Opposite(d), x));
    var j :| 0 <= j < |p.rooms| && p.rooms[j].key == y;
    assert Leads(p.links, y, Opposite(d), x);
    assert rooms[j].key == y;
  }
}
