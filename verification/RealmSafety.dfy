// What every game operation keeps, over all runs: vitals, capacity, quest items,
// equipment, NPC health, corpses, and the dead in the Hall of Returning.
module RealmSafety {
  import opened Wrappers
  import opened Tally
  import opened WorldPlan
  import opened Realm

  // Potions do not harm: assumed of the item catalogue, see PotionKills.
  ghost predicate Wholesome(w: Setting) {
    forall i :: i in w.items && w.items[i].healing.Some? ==> w.items[i].healing.value >= 0
  }

  // A character not marked dead has health left; a dead one lies in the hall and has a
  // time from which the free resurrection is open.
  ghost predicate CharOk(w: Setting, who: Character) {
    && 0 <= who.health <= who.maxHealth && 1 <= who.maxHealth && 0 <= who.stamina <= who.maxStamina && who.gold >= 0
    && (!who.dead ==> who.health > 0)
    && (who.dead ==> who.ready.Some? && w.hall.Some? && who.room == w.hall)
  }

  // A respawn time is set exactly while a monster is down. Loot is never a quest item.
  ghost predicate NpcOk(w: Setting, n: Npc) {
    && 0 <= n.health <= n.maxHealth && 1 <= n.maxHealth && n.gold >= 0 && n.experience >= 0
    && (n.health == 0 <==> n.respawnAt.Some?) && (!n.hostile ==> n.health > 0)
    && (n.loot.Some? ==> n.loot.value in w.items && !w.items[n.loot.value].quest)
  }

  ghost predicate CorpseOk(w: Setting, b: Corpse) {
    && Active(b) && b.coin > 0 && (b.item.None? ==> b.itemLooted)
    && (b.item.Some? ==> b.item.value in w.items && !w.items[b.item.value].quest)
  }

  // A row of a pack. Nobody holds two of a quest item; only equipment is equipped.
  ghost predicate RowOk(w: Setting, item: nat, h: Held) {
    && h.quantity >= 1 && item in w.items
    && (w.items[item].quest ==> h.quantity == 1) && (h.equipped ==> !w.items[item].kind.Plain?)
  }

  ghost predicate PackOk(w: Setting, pack: Pack) {
    && (forall k :: k in pack ==> RowOk(w, k.1, pack[k]))
    && (forall c: nat :: Carried(pack, c) <= CAPACITY)
  }

  // At most one weapon and one armor are equipped.
  ghost predicate WornOk(w: Setting, pack: Pack) {
    forall j, k :: (j in pack && k in pack && j.0 == k.0 && pack[j].equipped && pack[k].equipped
                    && j.1 in w.items && k.1 in w.items && w.items[j.1].kind == w.items[k.1].kind) ==> j == k
  }

  ghost predicate CharsOk(w: Setting, chars: map<nat, Character>) {
    forall c :: c in chars ==> CharOk(w, chars[c])
  }

  ghost predicate NpcsOk(w: Setting, npcs: map<nat, Npc>) {
    forall n :: n in npcs ==> NpcOk(w, npcs[n])
  }

  ghost predicate GroundOk(w: Setting, ground: Ground) {
    forall k :: k in ground ==> ground[k] >= 1 && k.1 in w.items
  }

  // Each NPC has at most one corpse with something left on it.
  ghost predicate CorpsesOk(w: Setting, corpses: map<nat, Corpse>) {
    && (forall k :: k in corpses ==> CorpseOk(w, corpses[k]))
    && (forall j, k :: j in corpses && k in corpses && j != k ==> corpses[j].npc != corpses[k].npc)
  }

  // Everything but the characters.
  ghost predicate Stocked(w: Setting, s: Tables) {
    PackOk(w, s.pack) && WornOk(w, s.pack) && GroundOk(w, s.ground) && NpcsOk(w, s.npcs) && CorpsesOk(w, s.corpses)
  }

  ghost predicate Sound(w: Setting, s: Tables) {
    CharsOk(w, s.chars) && Stocked(w, s)
  }

  // What an operation keeps: the stock whatever the potions, the characters if they heal.
  ghost predicate Keeps(w: Setting, s: Tables, t: Tables) {
    Stocked(w, t) && (Wholesome(w) && CharsOk(w, s.chars) ==> CharsOk(w, t.chars))
  }

  // ---------------------------------------------------------------- packs

  lemma CarriedStow(pack: Pack, c: nat, i: nat, n: int, d: nat)
    ensures Carried(Stow(pack, c, i, n), d) == Carried(pack, d) + if d == c then n else 0
  {
    var q := (if (c, i) in pack then pack[(c, i)].quantity else 0) + n;
    if d == c {
      assert PackOf(Stow(pack, c, i, n), c) == PackOf(pack, c)[(c, i) := q];
      SumPut(PackOf(pack, c), (c, i), q);
    } else {
      assert PackOf(Stow(pack, c, i, n), d) == PackOf(pack, d);
    }
  }

  lemma CarriedUnstow(pack: Pack, c: nat, i: nat, d: nat)
    requires (c, i) in pack && pack[(c, i)].quantity >= 1
    ensures Carried(Unstow(pack, c, i), d) == Carried(pack, d) - if d == c then 1 else 0
  {
    var q := pack[(c, i)].quantity;
    if d != c {
      assert PackOf(Unstow(pack, c, i), d) == PackOf(pack, d);
    } else if q == 1 {
      assert PackOf(Unstow(pack, c, i), c) == PackOf(pack, c) - {(c, i)};
      SumDrop(PackOf(pack, c), (c, i));
    } else {
      assert PackOf(Unstow(pack, c, i), c) == PackOf(pack, c)[(c, i) := q - 1];
      SumPut(PackOf(pack, c), (c, i), q - 1);
    }
  }

  lemma StowOk(w: Setting, pack: Pack, c: nat, i: nat, n: int)
    requires PackOk(w, pack) && WornOk(w, pack) && i in w.items && n >= 1 && Carried(pack, c) + n <= CAPACITY
    requires w.items[i].quest ==> n == 1 && (c, i) !in pack
    ensures PackOk(w, Stow(pack, c, i, n)) && WornOk(w, Stow(pack, c, i, n))
  {
    hide Carried;
    forall d: nat
      ensures Carried(Stow(pack, c, i, n), d) <= CAPACITY
    {
      CarriedStow(pack, c, i, n, d);
    }
  }

  lemma UnstowOk(w: Setting, pack: Pack, c: nat, i: nat)
    requires PackOk(w, pack) && WornOk(w, pack) && (c, i) in pack
    ensures PackOk(w, Unstow(pack, c, i)) && WornOk(w, Unstow(pack, c, i))
  {
    hide Carried;
    assert RowOk(w, i, pack[(c, i)]);
    forall d: nat
      ensures Carried(Unstow(pack, c, i), d) <= CAPACITY
    {
      CarriedUnstow(pack, c, i, d);
    }
  }

  // Rows that keep their quantities keep the pack within its limits.
  lemma SameQuantities(w: Setting, pack: Pack, q: Pack)
    requires PackOk(w, pack) && q.Keys == pack.Keys
    requires forall k :: k in pack ==> q[k].quantity == pack[k].quantity && (q[k].equipped ==> k.1 in w.items && !w.items[k.1].kind.Plain?)
    ensures PackOk(w, q)
  {
    forall c: nat
      ensures Carried(q, c) <= CAPACITY
    {
      assert PackOf(q, c) == PackOf(pack, c) && Carried(pack, c) <= CAPACITY;
    }
  }

  lemma WearOk(w: Setting, pack: Pack, c: nat, i: nat)
    requires PackOk(w, pack) && WornOk(w, pack) && (c, i) in pack && !w.items[i].kind.Plain?
    ensures PackOk(w, Wear(w, pack, c, i)) && WornOk(w, Wear(w, pack, c, i))
  {
    SameQuantities(w, pack, Wear(w, pack, c, i));
  }

  lemma GrabFits(w: Setting, pack: Pack, ground: Ground, c: nat, r: nat, i: nat)
    requires i in w.items && (r, i) in ground && Grab(w, pack, ground, c, r, i) != 0
    ensures var n := Grab(w, pack, ground, c, r, i);
            && 1 <= n <= ground[(r, i)] && Carried(pack, c) + n <= CAPACITY
            && (w.items[i].quest ==> n == 1 && (c, i) !in pack)
  {
  }

  lemma {:induction false} GatherOk(w: Setting, s: Tables, c: nat, r: nat, order: seq<nat>)
    requires PackOk(w, s.pack) && WornOk(w, s.pack) && GroundOk(w, s.ground)
    ensures var t := Gather(w, s, c, r, order); PackOk(w, t.pack) && WornOk(w, t.pack) && GroundOk(w, t.ground)
  {
    hide PackOk, WornOk, Grab, Stow;
    if order != [] {
      GatherOk(w, s, c, r, order[..|order| - 1]);
      var t := Gather(w, s, c, r, order[..|order| - 1]);
      var i := order[|order| - 1];
      if i in w.items && (r, i) in t.ground && Grab(w, t.pack, t.ground, c, r, i) != 0 {
        GrabFits(w, t.pack, t.ground, c, r, i);
        StowOk(w, t.pack, c, i, Grab(w, t.pack, t.ground, c, r, i));
      }
    }
  }

  // ---------------------------------------------------------------- items

  lemma TakeSafe(w: Setting, s: Tables, c: nat, r: nat, named: set<nat>)
    requires Stocked(w, s) && Take(w, s, c, r, named).Some?
    ensures Keeps(w, s, Take(w, s, c, r, named).value)
  {
    hide Chosen, Stow, PackOk, WornOk, CharsOk, NpcsOk, CorpsesOk, Carried;
    var i := Chosen(Lying(w, s.ground, r), named).value;
    StowOk(w, s.pack, c, i, 1);
  }

  lemma TakeAllSafe(w: Setting, s: Tables, c: nat, r: nat, order: seq<nat>)
    requires Stocked(w, s) && TakeAll(w, s, c, r, order).Some?
    ensures Keeps(w, s, TakeAll(w, s, c, r, order).value)
  {
    hide Gather;
    GatherOk(w, s, c, r, order);
  }

  lemma DropSafe(w: Setting, s: Tables, c: nat, r: nat, named: set<nat>)
    requires Stocked(w, s) && Drop(w, s, c, r, named).Some?
    ensures Keeps(w, s, Drop(w, s, c, r, named).value)
  {
    hide Chosen, Unstow, PackOk, WornOk, CharsOk, NpcsOk, CorpsesOk;
    UnstowOk(w, s.pack, c, Chosen(Owned(w, s.pack, c), named).value);
  }

  lemma UseSafe(w: Setting, s: Tables, c: nat, named: set<nat>)
    requires Stocked(w, s) && Use(w, s, c, named).Some?
    ensures Keeps(w, s, Use(w, s, c, named).value)
  {
    hide Chosen, Unstow, PackOk, WornOk, GroundOk, NpcsOk, CorpsesOk;
    UnstowOk(w, s.pack, c, Chosen(Owned(w, s.pack, c), named).value);
    assert CharsOk(w, s.chars) ==> CharOk(w, s.chars[c]);
  }

  lemma EquipSafe(w: Setting, s: Tables, c: nat, named: set<nat>)
    requires Stocked(w, s)
    ensures Equip(w, s, c, named).Some? ==> Keeps(w, s, Equip(w, s, c, named).value)
    ensures Unequip(w, s, c, named).Some? ==> Keeps(w, s, Unequip(w, s, c, named).value)
  {
    hide Chosen, Wear, CharsOk, GroundOk, NpcsOk, CorpsesOk, PackOk, WornOk;
    var chosen := Chosen(Owned(w, s.pack, c), named);
    if chosen.Some? {
      var i := chosen.value;
      if !w.items[i].kind.Plain? {
        WearOk(w, s.pack, c, i);
      }
      TakenOffOk(w, s.pack, c, i);
    }
  }

  lemma TakenOffOk(w: Setting, pack: Pack, c: nat, i: nat)
    requires PackOk(w, pack) && WornOk(w, pack) && (c, i) in pack
    ensures var q := pack[(c, i) := pack[(c, i)].(equipped := false)]; PackOk(w, q) && WornOk(w, q)
  {
    SameQuantities(w, pack, pack[(c, i) := pack[(c, i)].(equipped := false)]);
    hide PackOk;
  }

  // ---------------------------------------------------------------- combat

  lemma RespawnedOk(w: Setting, npcs: map<nat, Npc>, room: nat, now: int)
    requires NpcsOk(w, npcs)
    ensures NpcsOk(w, Respawned(npcs, room, now))
  {
  }

  lemma UnexpiredOk(w: Setting, corpses: map<nat, Corpse>, now: int)
    requires CorpsesOk(w, corpses)
    ensures CorpsesOk(w, Unexpired(corpses, now))
  {
  }

  lemma SlayOk(w: Setting, s: Tables, c: nat, r: nat, t: nat, luck: Luck, now: int)
    requires Stocked(w, s) && c in s.chars && t in s.npcs && s.npcs[t].hostile && s.chars[c].stamina >= ATTACK_COST
    requires LuckOk(luck, s.corpses) && Slay(s, c, r, t, luck, now).Some?
    ensures Keeps(w, s, Slay(s, c, r, t, luck, now).value)
  {
    hide PackOk, WornOk, GroundOk;
    UnexpiredOk(w, s.corpses, now);
    assert CharsOk(w, s.chars) ==> CharOk(w, s.chars[c]);
    assert NpcOk(w, s.npcs[t]);
    var after := Slay(s, c, r, t, luck, now).value;
    NewCorpse(w, Unexpired(s.corpses, now), luck.corpse, after.corpses[luck.corpse]);
  }

  lemma NewCorpse(w: Setting, corpses: map<nat, Corpse>, k: nat, b: Corpse)
    requires CorpsesOk(w, corpses) && !HasCorpse(corpses, b.npc) && CorpseOk(w, b)
    ensures CorpsesOk(w, corpses[k := b])
  {
    forall j | j in corpses
      ensures corpses[j].npc != b.npc
    {
      assert CorpseOk(w, corpses[j]);
    }
  }

  lemma SufferOk(w: Setting, s: Tables, c: nat, r: nat, t: nat, left: int, hit: int, now: int)
    requires Stocked(w, s) && c in s.chars && t in s.npcs && s.npcs[t].hostile && s.chars[c].stamina >= ATTACK_COST
    requires 1 <= left <= s.npcs[t].maxHealth && 0 <= hit <= s.chars[c].health && !s.chars[c].dead
    requires Suffer(w, s, c, r, t, left, hit, now).Some?
    ensures Keeps(w, s, Suffer(w, s, c, r, t, left, hit, now).value)
  {
    hide PackOk, WornOk, GroundOk, CorpsesOk;
    assert CharsOk(w, s.chars) ==> CharOk(w, s.chars[c]);
    assert NpcOk(w, s.npcs[t]);
  }

  lemma AttackSafe(w: Setting, s: Tables, c: nat, r: nat, named: set<nat>, luck: Luck, now: int)
    requires Stocked(w, s) && LuckOk(luck, s.corpses) && Attack(w, s, c, r, named, luck, now).Some?
    ensures Keeps(w, s, Attack(w, s, c, r, named, luck, now).value)
  {
    hide Chosen, Best, Slay, Suffer, PackOk, WornOk, GroundOk, CorpsesOk;
    RespawnedOk(w, s.npcs, r, now);
    var npcs := Respawned(s.npcs, r, now);
    var t := Chosen(Living(npcs, r), named).value;
    var u := s.(npcs := npcs);
    assert CharsOk(w, s.chars) ==> CharOk(w, s.chars[c]);
    assert NpcOk(w, npcs[t]);
    var left := npcs[t].health - Min(npcs[t].health, Max(1, 5 + Best(w, s.pack, c, Weapon) - npcs[t].defense));
    if left == 0 {
      SlayOk(w, u, c, r, t, luck, now);
    } else {
      SufferOk(w, u, c, r, t, left, Min(s.chars[c].health, Max(1, npcs[t].attack - Best(w, s.pack, c, Armor))), now);
    }
  }

  lemma LootFromOk(w: Setting, s: Tables, c: nat, k: nat)
    requires Stocked(w, s) && c in s.chars && k in s.corpses && LootFrom(w, s, c, k).Some?
    ensures Keeps(w, s, LootFrom(w, s, c, k).value)
  {
    hide PackOk, WornOk, GroundOk, NpcsOk, Stow, Carried;
    var b := s.corpses[k];
    assert CharsOk(w, s.chars) ==> CharOk(w, s.chars[c]);
    assert CorpseOk(w, b);
    if b.item.Some? && !b.itemLooted && Carried(s.pack, c) < CAPACITY {
      StowOk(w, s.pack, c, b.item.value, 1);
    }
  }

  lemma LootSafe(w: Setting, s: Tables, c: nat, r: nat, named: set<nat>, now: int)
    requires Stocked(w, s) && Loot(w, s, c, r, named, now).Some?
    ensures Keeps(w, s, Loot(w, s, c, r, named, now).value)
  {
    hide Chosen, LootFrom, PackOk, WornOk, GroundOk, NpcsOk, CharsOk, CorpsesOk;
    UnexpiredOk(w, s.corpses, now);
    var u := s.(corpses := Unexpired(s.corpses, now));
    LootFromOk(w, u, c, Chosen(Lootable(u.corpses, r), named).value);
  }

  // ---------------------------------------------------------------- the rest

  lemma ResurrectSafe(w: Setting, s: Tables, c: nat, pay: bool, cost: int, clock: int)
    requires Stocked(w, s) && Resurrect(w, s, c, pay, cost, clock).Some?
    ensures Keeps(w, s, Resurrect(w, s, c, pay, cost, clock).value)
  {
    hide PackOk, WornOk, GroundOk, NpcsOk, CorpsesOk;
    assert CharsOk(w, s.chars) ==> CharOk(w, s.chars[c]);
  }

  lemma GiveSafe(w: Setting, s: Tables, c: nat, r: nat, items: set<nat>, npcs: set<nat>)
    requires Stocked(w, s) && Give(w, s, c, r, items, npcs).Some?
    ensures Keeps(w, s, Give(w, s, c, r, items, npcs).value)
  {
    hide Chosen, NpcsOk, CorpsesOk, PackOk, WornOk;
    assert CharsOk(w, s.chars) ==> CharOk(w, s.chars[c]);
    GivenOk(w, s.pack, c, w.manifest);
    assert w.manifest in w.items;
  }

  lemma GivenOk(w: Setting, pack: Pack, c: nat, i: nat)
    requires PackOk(w, pack) && WornOk(w, pack) && (c, i) in pack
    ensures PackOk(w, pack - {(c, i)}) && WornOk(w, pack - {(c, i)})
  {
    hide Carried;
    assert RowOk(w, i, pack[(c, i)]);
    forall d: nat
      ensures Carried(pack - {(c, i)}, d) <= CAPACITY
    {
      CarriedDrop(pack, c, i, d);
    }
  }

  lemma CarriedDrop(pack: Pack, c: nat, i: nat, d: nat)
    requires (c, i) in pack && pack[(c, i)].quantity >= 0
    ensures Carried(pack - {(c, i)}, d) <= Carried(pack, d)
  {
    if d == c {
      assert PackOf(pack - {(c, i)}, c) == PackOf(pack, c) - {(c, i)};
      SumDrop(PackOf(pack, c), (c, i));
    } else {
      assert PackOf(pack - {(c, i)}, d) == PackOf(pack, d);
    }
  }

  lemma PersonSafe(w: Setting, s: Tables, op: Op, now: int)
    requires Stocked(w, s) && (op.RestOp? || op.AwardOp? || op.MoveOp?) && Performed(w, s, op, now).Some?
    ensures Keeps(w, s, Performed(w, s, op, now).value)
  {
    hide PackOk, WornOk, GroundOk, NpcsOk, CorpsesOk;
    assert CharsOk(w, s.chars) ==> CharOk(w, s.chars[op.c]);
  }

  lemma OpKeeps(w: Setting, s: Tables, op: Op, now: int)
    requires Stocked(w, s)
    ensures Keeps(w, s, Stepped(w, s, op, now))
  {
    hide Stocked, Keeps, Take, TakeAll, Drop, Use, Equip, Unequip, Attack, Loot, Resurrect, Give, Rest, Award, Move, Respawned, Unexpired;
    if Performed(w, s, op, now).Some? {
      match op
      case TakeOp(c, r, named) => TakeSafe(w, s, c, r, named);
      case TakeAllOp(c, r, order) => TakeAllSafe(w, s, c, r, order);
      case DropOp(c, r, named) => DropSafe(w, s, c, r, named);
      case UseOp(c, named) => UseSafe(w, s, c, named);
      case EquipOp(c, named) => EquipSafe(w, s, c, named);
      case UnequipOp(c, named) => EquipSafe(w, s, c, named);
      case AttackOp(c, r, named, luck) => AttackSafe(w, s, c, r, named, luck, now);
      case LootOp(c, r, named) => LootSafe(w, s, c, r, named, now);
      case ResurrectOp(c, pay, cost, clock) => ResurrectSafe(w, s, c, pay, cost, clock);
      case GiveOp(c, r, items, npcs) => GiveSafe(w, s, c, r, items, npcs);
      case RestOp(c, r) => PersonSafe(w, s, op, now);
      case AwardOp(c, gold, heal) => PersonSafe(w, s, op, now);
      case MoveOp(c, d) => PersonSafe(w, s, op, now);
      case LookOp(r) => LookSafe(w, s, r, now);
      case SearchOp(r) => LookSafe(w, s, r, now);
    } else {
      NothingChanges(w, s);
    }
  }

  lemma NothingChanges(w: Setting, s: Tables)
    requires Stocked(w, s)
    ensures Keeps(w, s, s)
  {
  }

  lemma LookSafe(w: Setting, s: Tables, r: nat, now: int)
    requires Stocked(w, s)
    ensures Keeps(w, s, s.(npcs := Respawned(s.npcs, r, now))) && Keeps(w, s, s.(corpses := Unexpired(s.corpses, now)))
  {
    RespawnedOk(w, s.npcs, r, now);
    UnexpiredOk(w, s.corpses, now);
    hide PackOk, WornOk, GroundOk, NpcsOk, CharsOk, CorpsesOk;
  }

  // Every operation keeps all of it.
  lemma OpSafe(w: Setting, s: Tables, op: Op, now: int)
    requires Wholesome(w) && Sound(w, s)
    ensures Sound(w, Stepped(w, s, op, now))
  {
    hide Stepped;
    OpKeeps(w, s, op, now);
  }

  // Over every run of operations by any players: nobody carries more than fifty things
  // or two of a quest item, or wears two weapons or armors; monsters stay within their
  // health; each has at most one corpse; the living have health and the dead lie in the
  // hall.
  lemma {:induction false} RunSafe(w: Setting, s: Tables, ops: seq<(Op, int)>)
    requires Wholesome(w) && Sound(w, s)
    ensures Sound(w, Ran(w, s, ops))
  {
    hide Sound, Stepped;
    if ops != [] {
      var n := |ops| - 1;
      RunSafe(w, s, ops[..n]);
      OpSafe(w, Ran(w, s, ops[..n]), ops[n].0, ops[n].1);
    }
  }

  // The stock is kept whatever the potions do to their drinkers.
  lemma {:induction false} RunStocked(w: Setting, s: Tables, ops: seq<(Op, int)>)
    requires Stocked(w, s)
    ensures Stocked(w, Ran(w, s, ops))
  {
    hide Stocked, Stepped;
    if ops != [] {
      var n := |ops| - 1;
      RunStocked(w, s, ops[..n]);
      OpKeeps(w, Ran(w, s, ops[..n]), ops[n].0, ops[n].1);
    }
  }

  // ---------------------------------------------------------------- death

  // Death never traps: in any reachable state a dead character may resurrect for free
  // from the time set when it died, and returns with between one and all of its health.
  lemma DeathNeverTraps(w: Setting, s: Tables, ops: seq<(Op, int)>, c: nat, clock: int)
    requires Wholesome(w) && Sound(w, s) && c in Ran(w, s, ops).chars && Ran(w, s, ops).chars[c].dead
    ensures var t := Ran(w, s, ops);
            && t.chars[c].ready.Some?
            && (Resurrect(w, t, c, false, 0, clock).Some? <==> t.chars[c].ready.value <= clock)
            && (Resurrect(w, t, c, false, 0, clock).Some? ==>
                  var who := Resurrect(w, t, c, false, 0, clock).value.chars[c];
                  !who.dead && 1 <= who.health <= who.maxHealth && who.stamina == who.maxStamina
                  && who.gold == t.chars[c].gold && who.room == w.hall)
  {
    RunSafe(w, s, ops);
    assert CharOk(w, Ran(w, s, ops).chars[c]);
    hide Ran;
  }

  // Paying opens the way at once, for whoever can pay.
  lemma PaymentRevives(w: Setting, s: Tables, c: nat, cost: int, clock: int)
    requires Sound(w, s) && c in s.chars && s.chars[c].dead && cost >= 0
    ensures Resurrect(w, s, c, true, cost, clock).Some? <==> s.chars[c].gold >= cost
    ensures s.chars[c].gold >= cost ==>
              var t := Resurrect(w, s, c, true, cost, clock).value;
              !t.chars[c].dead && t.chars[c].gold == s.chars[c].gold - cost && t.payments == s.payments + [Payment(c, cost)]
  {
    assert CharOk(w, s.chars[c]);
  }

  // A player dies only in its own attack, of the last of its health, and loses nothing
  // by it: no item, no coin, no experience. It wakes in the hall, and ten minutes of
  // transaction time later the free resurrection is open.
  lemma DeathTakesNothing(w: Setting, s: Tables, op: Op, now: int, c: nat)
    requires Sound(w, s) && c in s.chars && !s.chars[c].dead
    requires c in Stepped(w, s, op, now).chars && Stepped(w, s, op, now).chars[c].dead
    ensures var t := Stepped(w, s, op, now);
            && op.AttackOp? && op.c == c && s.chars[c].room == Some(op.r)
            && t.chars[c] == s.chars[c].(health := 0, stamina := s.chars[c].stamina - ATTACK_COST, room := w.hall, dead := true,
                                         died := Some(now), ready := Some(now + 600 * SECOND), deathRoom := Some(op.r))
            && t.pack == s.pack && t.ground == s.ground && t.corpses == s.corpses && t.payments == s.payments
  {
    hide Chosen, Best, Gather, Stow, Unstow, Lift, Lay, Carried, Wear, Respawned, Unexpired, HasCorpse, LuckOk,
      PackOk, WornOk, NpcsOk, CorpsesOk, GroundOk;
    if op.AttackOp? {
      DyingAttack(w, s, op, now, c);
    }
    hide Attack, Loot;
    if op.LootOp? {
      LootKillsNobody(w, s, op, now, c);
    }
  }

  lemma DyingAttack(w: Setting, s: Tables, op: Op, now: int, c: nat)
    requires op.AttackOp? && c in s.chars && !s.chars[c].dead
    requires c in Stepped(w, s, op, now).chars && Stepped(w, s, op, now).chars[c].dead
    ensures var t := Stepped(w, s, op, now);
            && op.c == c && s.chars[c].room == Some(op.r)
            && t.chars[c] == s.chars[c].(health := 0, stamina := s.chars[c].stamina - ATTACK_COST, room := w.hall, dead := true,
                                         died := Some(now), ready := Some(now + 600 * SECOND), deathRoom := Some(op.r))
            && t.pack == s.pack && t.ground == s.ground && t.corpses == s.corpses && t.payments == s.payments
  {
    hide Chosen, Best, HasCorpse, Respawned, Unexpired;
  }

  lemma LootKillsNobody(w: Setting, s: Tables, op: Op, now: int, c: nat)
    requires op.LootOp? && c in s.chars && !s.chars[c].dead
    ensures var t := Stepped(w, s, op, now); c in t.chars && !t.chars[c].dead
  {
    hide Chosen, Stow, Carried, Unexpired;
  }

  // The dead stay in the hall and cannot act their way out: only resurrection ends death.
  lemma DeathEndsByResurrection(w: Setting, s: Tables, op: Op, now: int, c: nat)
    requires c in s.chars && s.chars[c].dead
    ensures var t := Stepped(w, s, op, now);
            && c in t.chars && t.chars[c].room == s.chars[c].room
            && (t.chars[c].dead || (op.ResurrectOp? && op.c == c))
  {
    hide Chosen, Best, Gather, Stow, Unstow, Lift, Lay, Carried, Wear, Respawned, Unexpired, LuckOk;
    if op.AttackOp? {
      DeadAttack(w, s, op, now, c);
    }
    hide Attack;
    if op.LootOp? {
      DeadLoot(w, s, op, now, c);
    }
    hide Loot;
  }

  lemma DeadAttack(w: Setting, s: Tables, op: Op, now: int, c: nat)
    requires op.AttackOp? && c in s.chars && s.chars[c].dead
    ensures var t := Stepped(w, s, op, now); c in t.chars && t.chars[c] == s.chars[c]
  {
    hide Chosen, Best, HasCorpse, Respawned, Unexpired;
  }

  lemma DeadLoot(w: Setting, s: Tables, op: Op, now: int, c: nat)
    requires op.LootOp? && c in s.chars && s.chars[c].dead
    ensures var t := Stepped(w, s, op, now); c in t.chars && t.chars[c] == s.chars[c]
  {
    hide Chosen, Stow, Carried, Unexpired;
  }

  // Without the assumption on potions the first half fails: a harmful potion takes a
  // living character to zero health without killing it exactly when it takes all of it.
  lemma PotionKills(w: Setting, s: Tables, c: nat, named: set<nat>)
    requires Sound(w, s) && Use(w, s, c, named).Some? && !s.chars[c].dead
    ensures var i := Chosen(Owned(w, s.pack, c), named).value;
            var t := Use(w, s, c, named).value;
            !t.chars[c].dead && (t.chars[c].health == 0 <==>
              w.items[i].healing.Some? && w.items[i].healing.value == -s.chars[c].health)
  {
    hide Chosen, Unstow;
    assert CharOk(w, s.chars[c]);
  }

  // ---------------------------------------------------------------- movement

  // The rooms passed when `dirs` are taken from `room`.
  predicate LeadsTo(w: Setting, room: nat, dirs: seq<Direction>, to: nat)
    decreases |dirs|
  {
    if dirs == [] then room == to
    else
      && room in w.rooms && dirs[0] in w.rooms[room].exits && w.rooms[room].exits[dirs[0]] in w.rooms
      && LeadsTo(w, w.rooms[room].exits[dirs[0]], dirs[1..], to)
  }

  function Walks(c: nat, dirs: seq<Direction>, now: int): seq<(Op, int)> {
    seq(|dirs|, i requires 0 <= i < |dirs| => (MoveOp(c, dirs[i]), now))
  }

  lemma {:induction false} LeadsNext(w: Setting, room: nat, dirs: seq<Direction>, to: nat) returns (via: nat)
    requires dirs != [] && LeadsTo(w, room, dirs, to)
    ensures LeadsTo(w, room, dirs[..|dirs| - 1], via) && LeadsTo(w, via, [dirs[|dirs| - 1]], to)
    decreases |dirs|
  {
    var n := |dirs| - 1;
    if n == 0 {
      via := room;
      assert dirs == [dirs[0]] && dirs[..0] == [];
    } else {
      via := LeadsNext(w, w.rooms[room].exits[dirs[0]], dirs[1..], to);
      assert dirs[1..][..n - 1] == dirs[..n][1..];
    }
  }

  // Wherever exits lead, a living player can walk: weariness never stops it.
  lemma {:induction false} LivingWalk(w: Setting, s: Tables, c: nat, room: nat, dirs: seq<Direction>, to: nat, now: int)
    requires c in s.chars && !s.chars[c].dead && s.chars[c].room == Some(room) && LeadsTo(w, room, dirs, to)
    ensures var t := Ran(w, s, Walks(c, dirs, now));
            && c in t.chars && !t.chars[c].dead && t.chars[c].room == Some(to)
            && t.chars[c].health == s.chars[c].health && t.chars[c].gold == s.chars[c].gold
            && t.chars[c].stamina <= Max(0, s.chars[c].stamina)
    decreases |dirs|
  {
    var walk := Walks(c, dirs, now);
    if dirs == [] {
      assert walk == [];
    } else {
      var n := |dirs| - 1;
      var via := LeadsNext(w, room, dirs, to);
      LivingWalk(w, s, c, room, dirs[..n], via, now);
      assert walk[..n] == Walks(c, dirs[..n], now);
      assert [dirs[n]][1..] == [];
    }
  }
}
