// The rules of the world builtins in numbers: which calls a world script may make, and which
// texts they take.
module WorldRules {
  import opened Wrappers
  import opened WorldPlan

  // A call is accepted iff its declaration is well-formed and new and there is room for it;
  // it then adds exactly that declaration.
  lemma CallAccepted(p: Plan, call: Call)
    ensures Declare(p, call).Some? <==>
              match call
              case DefineRoom(r) =>
                && IsKey(r.key) && (r.script == "" || IsKey(r.script)) && Clean(r.name, 100) && Clean(r.description, 512)
                && (r.kind == "normal" || r.kind == "safe" || r.kind == "shop" || r.kind == "inn" || r.kind == "dungeon")
                && (forall i :: 0 <= i < |p.rooms| ==> p.rooms[i].key != r.key) && |p.rooms| < 96
              case DefineMonster(m) =>
                && IsKey(m.key) && IsKey(m.room) && Clean(m.name, 100) && Clean(m.description, 512)
                && (if m.loot == "" then m.drop == 0 else Clean(m.loot, 100) && 1 <= m.drop <= 10_000)
                && 1 <= m.health <= 1_000 && 1 <= m.attack <= 100 && 0 <= m.defense <= 50
                && 0 <= m.gold <= 100 && 0 <= m.experience <= 1_000 && 30 <= m.respawn <= 60 * 60
                && (forall i :: 0 <= i < |p.monsters| ==> p.monsters[i].key != m.key) && |p.monsters| < 32
              case DefineLink(from, direction, to) => direction.Some? && from != to && |p.links| < 2 * 96
    ensures Declare(p, call).Some? ==>
              var q := Declare(p, call).value;
              match call
              case DefineRoom(r) =>
                q.monsters == p.monsters && q.links == p.links
                && |q.rooms| == |p.rooms| + 1 && q.rooms[..|p.rooms|] == p.rooms && q.rooms[|p.rooms|] == r.(exits := map[])
              case DefineMonster(m) => q.rooms == p.rooms && q.links == p.links && q.monsters == p.monsters + [m]
              case DefineLink(from, direction, to) =>
                direction.Some? && q.rooms == p.rooms && q.monsters == p.monsters
                && q.links == p.links + [Link(from, direction.value, to)]
  {
  }

  // In an accepted plan every monster stands in a room for fighting and every link joins
  // two rooms of the plan.
  lemma PlansMeet(p: Plan)
    requires Acceptable(p)
    ensures forall m :: m in p.monsters ==>
              exists i :: 0 <= i < |p.rooms| && p.rooms[i].key == m.room && (p.rooms[i].kind == "dungeon" || p.rooms[i].kind == "normal")
    ensures forall l :: l in p.links ==>
              && (exists i :: 0 <= i < |p.rooms| && p.rooms[i].key == l.from)
              && (exists i :: 0 <= i < |p.rooms| && p.rooms[i].key == l.to)
  {
    hide Connected, NoOverwrite;
    forall m | m in p.monsters
      ensures MonsterPlaced(p, m)
    {
    }
  }

  // No exit of a room is declared twice, from whichever end of a link.
  lemma ExitsOnce(p: Plan, i: nat, j: nat)
    requires Acceptable(p) && i < |p.links| && j < |p.links| && i != j
    ensures var (a, b) := (p.links[i], p.links[j]);
            && !(a.from == b.from && a.direction == b.direction) && !(a.to == b.to && a.direction == b.direction)
            && !(a.from == b.to && Undoes(a.direction, b.direction))
  {
    hide Connected;
    OppositeUndoes(p.links[j].direction, p.links[i].direction);
    if i < j {
      assert Slot(p.links[i]) != Slot(p.links[j]);
    } else {
      assert Slot(p.links[j]) != Slot(p.links[i]);
    }
  }

  // A key begins with a letter and goes on with letters, digits and underscores, up to 40.
  lemma {:induction false} KeyGrows(key: string, c: char)
    ensures IsKey([c]) <==> 'a' <= c <= 'z'
    ensures key != [] ==> (IsKey(key + [c]) <==> IsKey(key) && |key| < 40 && ('a' <= c <= 'z' || '0' <= c <= '9' || c == '_'))
    ensures !IsKey([])
  {
    if key != [] {
      var longer := key + [c];
      assert longer[|key|] == c && longer[0] == key[0];
      if IsKey(longer) {
        assert forall i :: 0 <= i < |key| ==> key[i] == longer[i];
      }
    }
  }

  lemma {:induction false} AsciiLength(s: string)
    requires forall i :: 0 <= i < |s| ==> s[i] <= '~'
    ensures ByteLength(s) == |s|
  {
    if s != [] {
      AsciiLength(s[1..]);
    }
  }

  // A text of printing ASCII characters is taken iff it is not blank and not too long; a
  // control character, or a letter beyond the limit in bytes, spoils any text.
  lemma PlainText(s: string, limit: nat)
    requires forall i :: 0 <= i < |s| ==> ' ' <= s[i] <= '~'
    ensures Clean(s, limit) <==> |s| <= limit && exists i :: 0 <= i < |s| && s[i] != ' '
  {
    AsciiLength(s);
    if i :| 0 <= i < |s| && s[i] != ' ' {
      assert s[i] in s && !IsSpace(s[i]);
    }
  }

  lemma Spoilt(s: string, limit: nat, i: nat)
    requires i < |s| && (s[i] < ' ' || '\U{7F}' <= s[i] < '\U{A0}')
    ensures !Clean(s, limit)
  {
    assert s[i] in s;
  }

  // A character takes one to four bytes.
  lemma WideLetters(c: char)
    ensures ByteLength([c]) == if c < '\U{80}' then 1 else if c < '\U{800}' then 2 else if c < '\U{10000}' then 3 else 4
  {
    assert [c][1..] == [];
  }
}
