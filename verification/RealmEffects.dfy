// What single operations are worth to a player, in numbers: drops and coin of a killing
// blow, potions, rest, walking, resurrection, deliveries and awards.
module RealmEffects {
  import opened Wrappers
  import opened WorldPlan
  import opened Realm
  import opened RealmSafety
  import opened RealmCoin
  import opened RealmDeeds

  // ---------------------------------------------------------------- drops

  // The same attack with another roll for the drop.
  function Rolled(op: Op, roll: nat): Op
    requires op.AttackOp?
  {
    op.(luck := op.luck.(roll := roll))
  }

  lemma SlayRolls(s: Tables, c: nat, r: nat, t: nat, luck: Luck, roll: nat, now: int)
    requires c in s.chars && t in s.npcs && Slay(s, c, r, t, luck, now).Some?
    ensures var a, b := Slay(s, c, r, t, luck, now).value, Slay(s, c, r, t, luck.(roll := roll), now);
            && b.Some? && luck.corpse in a.corpses && luck.corpse in b.value.corpses
            && a.corpses[luck.corpse].npc == t
            && var corpse := b.value.corpses[luck.corpse];
               && corpse.npc == t && corpse.owner == c && corpse.room == r && !corpse.coinLooted
               && corpse.item == (if s.npcs[t].loot.Some? && roll < s.npcs[t].chance then s.npcs[t].loot else None)
               && corpse.coin == s.npcs[t].gold * 10_000 + luck.silver * 100 + luck.copper
               && corpse.expires == now + 30 * 60 * 1_000_000
  {
    hide HasCorpse;
  }

  lemma SufferLeaves(w: Setting, s: Tables, c: nat, r: nat, t: nat, left: int, hit: int, now: int)
    requires c in s.chars && t in s.npcs
    ensures var u := Suffer(w, s, c, r, t, left, hit, now); u.Some? ==> u.value.corpses == s.corpses
  {
  }

  // What an attack leaves of the health of the monster it hits.
  ghost function Remaining(w: Setting, s: Tables, c: nat, t: nat, npcs: map<nat, Npc>): int
    requires t in npcs
  {
    npcs[t].health - Min(npcs[t].health, Max(1, 5 + Best(w, s.pack, c, Weapon) - npcs[t].defense))
  }

  // Luck decides neither whom an attack hits nor whether it kills.
  lemma AttackSplits(w: Setting, s: Tables, c: nat, r: nat, named: set<nat>, luck: Luck, other: Luck, now: int)
    requires Attack(w, s, c, r, named, luck, now).Some?
    ensures var u := s.(npcs := Respawned(s.npcs, r, now));
            var t := Chosen(Living(u.npcs, r), named).GetOr(0);
            && c in s.chars && t in s.npcs && t in u.npcs
            && (if Remaining(w, s, c, t, u.npcs) == 0 then Attack(w, s, c, r, named, other, now) == Slay(u, c, r, t, other, now)
                else Attack(w, s, c, r, named, other, now).Some? ==> Attack(w, s, c, r, named, other, now).value.corpses == s.corpses)
  {
    var npcs := Respawned(s.npcs, r, now);
    var t := Chosen(Living(npcs, r), named).value;
    var hit := Min(s.chars[c].health, Max(1, npcs[t].attack - Best(w, s.pack, c, Armor)));
    SufferLeaves(w, s.(npcs := npcs), c, r, t, Remaining(w, s, c, t, npcs), hit, now);
    hide Best, Slay, Suffer, Living, Min, Max;
  }

  // With any luck, an attack that kills slays the monster it hit.
  lemma KillSlays(w: Setting, s: Tables, op: Op, now: int, luck: Luck)
    requires Kills(w, s, op, now)
    ensures var u := s.(npcs := Respawned(s.npcs, op.r, now));
            var t := Chosen(Living(u.npcs, op.r), op.named).GetOr(0);
            && op.c in s.chars && t in s.npcs
            && Attack(w, s, op.c, op.r, op.named, luck, now) == Slay(u, op.c, op.r, t, luck, now)
  {
    hide Attack, Slay, Living, Respawned, Chosen, Remaining;
    assert op.luck.corpse !in s.corpses;
    AttackSplits(w, s, op.c, op.r, op.named, op.luck, op.luck, now);
    AttackSplits(w, s, op.c, op.r, op.named, op.luck, luck, now);
  }

  // A killing blow with another roll kills the same monster; its corpse lasts half an hour,
  // holds the coin of the blow, and the item exactly for the rolls below the chance.
  lemma BlowRolls(w: Setting, s: Tables, op: Op, now: int, roll: nat)
    requires Kills(w, s, op, now) && roll < 10_000
    ensures var t := Victim(w, s, op, now);
            && Kills(w, s, Rolled(op, roll), now) && t in s.npcs
            && var b := Performed(w, s, Rolled(op, roll), now).value.corpses[op.luck.corpse];
               && b.npc == t && b.owner == op.c && b.room == op.r && !b.coinLooted
               && b.item == (if s.npcs[t].loot.Some? && roll < s.npcs[t].chance then s.npcs[t].loot else None)
               && b.coin == s.npcs[t].gold * 10_000 + op.luck.silver * 100 + op.luck.copper
               && b.expires == now + 30 * 60 * 1_000_000
  {
    var u := s.(npcs := Respawned(s.npcs, op.r, now));
    var t := Chosen(Living(u.npcs, op.r), op.named).GetOr(0);
    KillSlays(w, s, op, now, op.luck);
    KillSlays(w, s, op, now, op.luck.(roll := roll));
    assert LuckOk(op.luck, s.corpses) && LuckOk(op.luck.(roll := roll), s.corpses);
    assert u.npcs[t].loot == s.npcs[t].loot && u.npcs[t].chance == s.npcs[t].chance && u.npcs[t].gold == s.npcs[t].gold;
    hide Attack, Slay, Respawned, Living, LuckOk, Chosen;
    SlayRolls(u, op.c, op.r, t, op.luck, roll, now);
  }

  ghost predicate Drops(w: Setting, s: Tables, op: Op, now: int, roll: nat)
    requires op.AttackOp?
  {
    Kills(w, s, Rolled(op, roll), now) && Performed(w, s, Rolled(op, roll), now).value.corpses[op.luck.corpse].item.Some?
  }

  lemma RollDrops(w: Setting, s: Tables, op: Op, now: int, roll: nat)
    requires Kills(w, s, op, now) && roll < 10_000
    ensures var t := Victim(w, s, op, now);
            t in s.npcs && (Drops(w, s, op, now, roll) <==> s.npcs[t].loot.Some? && roll < s.npcs[t].chance)
  {
    BlowRolls(w, s, op, now, roll);
    hide Kills, Victim, Performed;
  }

  function Below(n: nat): (rolls: set<nat>)
    ensures |rolls| == n && forall roll: nat :: roll in rolls <==> roll < n
  {
    if n == 0 then {} else Below(n - 1) + {n - 1}
  }

  // The chance of a drop is counted in ten-thousandths: of the rolls there are, exactly
  // that many leave the item on the corpse, the lowest ones; without loot none does.
  lemma DropRate(w: Setting, s: Tables, op: Op, now: int)
    requires Kills(w, s, op, now)
    ensures var t := Victim(w, s, op, now);
            var dropping := set roll: nat | roll < 10_000 && Drops(w, s, op, now, roll);
            && t in s.npcs
            && (s.npcs[t].loot.None? || s.npcs[t].chance <= 0 ==> |dropping| == 0)
            && (s.npcs[t].loot.Some? && 0 <= s.npcs[t].chance <= 10_000 ==> |dropping| == s.npcs[t].chance)
            && (s.npcs[t].loot.Some? && s.npcs[t].chance >= 10_000 ==> |dropping| == 10_000)
            && forall roll: nat, lower: nat :: lower <= roll && roll in dropping ==> lower in dropping
  {
    var t := Victim(w, s, op, now);
    var dropping := set roll: nat | roll < 10_000 && Drops(w, s, op, now, roll);
    hide Kills, Drops, Victim;
    RollDrops(w, s, op, now, 0);
    forall roll: nat | roll < 10_000
      ensures Drops(w, s, op, now, roll) <==> s.npcs[t].loot.Some? && roll < s.npcs[t].chance
    {
      RollDrops(w, s, op, now, roll);
    }
    var n := if s.npcs[t].loot.None? || s.npcs[t].chance < 0 then 0
             else if s.npcs[t].chance > 10_000 then 10_000 else s.npcs[t].chance;
    assert dropping == Below(n);
  }

  // ---------------------------------------------------------------- vitals and coin

  // Everything but the vitals, the purse and the room of one character is as it was.
  predicate OnlyPerson(s: Tables, t: Tables, c: nat) {
    && c in s.chars && c in t.chars && t == s.(chars := s.chars[c := t.chars[c]])
  }

  // A potion is used iff it can be and leaves no vital below zero: one that heals adds its
  // healing to the health, any other its stamina to the stamina, up to the maximum.
  lemma PotionWorth(w: Setting, s: Tables, c: nat, named: set<nat>, i: nat)
    requires c in s.chars && i in w.items && (c, i) in s.pack
    requires i in named && forall j :: j in w.items && (c, j) in s.pack && j in named ==> j == i
    ensures var who, healing, restores := s.chars[c], w.items[i].healing, w.items[i].restores;
            var t := Use(w, s, c, named);
            && (t.Some? <==> if healing.Some? then who.stamina >= 0 && who.maxHealth >= 0 && who.health + healing.value >= 0
                             else restores.Some? && who.health >= 0 && who.maxStamina >= 0 && who.stamina + restores.value >= 0)
            && (t.Some? ==>
                  && c in t.value.chars && t.value == s.(pack := t.value.pack, chars := s.chars[c := t.value.chars[c]])
                  && var now := t.value.chars[c];
                     && now == who.(health := now.health, stamina := now.stamina)
                     && (if healing.Some? then
                           && now.stamina == who.stamina && now.health <= who.maxHealth
                           && (now.health == who.health + healing.value || (now.health == who.maxHealth < who.health + healing.value))
                         else
                           && now.health == who.health && now.stamina <= who.maxStamina
                           && (now.stamina == who.stamina + restores.value
                               || (now.stamina == who.maxStamina < who.stamina + restores.value))))
  {
    assert (c, i) in s.pack;
    assert Only(Owned(w, s.pack, c), named, i);
    hide Unstow;
  }

  // At an inn, and nowhere else, a rest fills health and stamina.
  lemma RestFills(w: Setting, s: Tables, c: nat, r: nat)
    requires c in s.chars && s.chars[c].room == Some(r)
    ensures var t := Rest(w, s, c, r);
            && (t.Some? <==> r in w.rooms && w.rooms[r].kind == Inn)
            && (t.Some? ==> OnlyPerson(s, t.value, c)
                            && t.value.chars[c] == s.chars[c].(health := s.chars[c].maxHealth, stamina := s.chars[c].maxStamina))
  {
  }

  // The living follow an exit iff it is there; a step costs one stamina as long as there
  // is any, and nothing else.
  lemma StepCosts(w: Setting, s: Tables, c: nat, d: Direction, room: nat)
    requires c in s.chars && s.chars[c].room == Some(room) && room in w.rooms
    requires forall e :: e in w.rooms[room].exits ==> w.rooms[room].exits[e] in w.rooms
    ensures var t := Move(w, s, c, d);
            && (t.Some? <==> !s.chars[c].dead && d in w.rooms[room].exits)
            && (t.Some? ==>
                  && OnlyPerson(s, t.value, c)
                  && t.value.chars[c] == s.chars[c].(room := Some(w.rooms[room].exits[d]), stamina := t.value.chars[c].stamina)
                  && t.value.chars[c].stamina == if s.chars[c].stamina >= 1 then s.chars[c].stamina - 1 else 0)
  {
  }

  // Resurrection gives half of the health, but at least one point, and all of the stamina,
  // and clears every trace of the death; only a payment costs, exactly its price. It is
  // open in the hall: for the price at once, for nothing from the time set.
  lemma ResurrectionGives(w: Setting, s: Tables, c: nat, pay: bool, cost: int, clock: int)
    requires c in s.chars
    ensures var t, who := Resurrect(w, s, c, pay, cost, clock), s.chars[c];
            && (t.Some? <==> who.dead && w.hall.Some? && who.room == w.hall && who.ready.Some?
                             && if pay then who.gold >= cost >= 0 else who.ready.value <= clock)
            && (t.Some? ==>
                  && c in t.value.chars && t.value == s.(chars := s.chars[c := t.value.chars[c]], payments := t.value.payments)
                  && t.value.payments == (if pay then s.payments + [Payment(c, cost)] else s.payments)
                  && var now := t.value.chars[c];
                     && !now.dead && now.died == None && now.ready == None && now.deathRoom == None
                     && now.room == who.room && now.experience == who.experience
                     && now.gold == (if pay then who.gold - cost else who.gold)
                     && now.stamina == who.maxStamina == now.maxStamina && now.maxHealth == who.maxHealth
                     && now.health >= 1 && (now.health == 1 || 2 * now.health <= who.maxHealth) && who.maxHealth <= 2 * now.health + 1)
  {
  }

  // The crier takes the manifest from whoever brings it, for fifteen gold and up to twenty
  // stamina, and counts the deliveries of each character.
  lemma DeliveryPays(w: Setting, s: Tables, c: nat, r: nat, items: set<nat>, npcs: set<nat>, i: nat, crier: nat)
    requires InRoom(s, c, r) && w.docks.Some?
    requires i in w.items && (c, i) in s.pack && i in items
    requires forall j :: j in w.items && (c, j) in s.pack && j in items ==> j == i
    requires crier in s.npcs && s.npcs[crier].room == r && s.npcs[crier].health > 0 && crier in npcs
    requires forall n :: n in s.npcs && s.npcs[n].room == r && s.npcs[n].health > 0 && n in npcs ==> n == crier
    ensures var t := Give(w, s, c, r, items, npcs);
            && (t.Some? <==> s.npcs[crier].crier && i == w.manifest)
            && (t.Some? ==>
                  && c in t.value.chars && t.value.chars == s.chars[c := t.value.chars[c]]
                  && t.value.npcs == s.npcs && t.value.corpses == s.corpses && t.value.payments == s.payments
                  && c in t.value.deliveries && t.value.deliveries - {c} == s.deliveries - {c}
                  && t.value.deliveries[c] == 1 + (if c in s.deliveries then s.deliveries[c] else 0)
                  && var who, now := s.chars[c], t.value.chars[c];
                     && now == who.(gold := who.gold + 150_000, stamina := now.stamina)
                     && now.stamina == (if who.stamina + 20 <= who.maxStamina then who.stamina + 20 else who.maxStamina))
  {
    assert (c, i) in s.pack;
    assert Only(Owned(w, s.pack, c), items, i);
    assert Only(Living(s.npcs, r), npcs, crier);
    hide Chosen, Owned, Living;
  }

  // A script awards up to a hundred gold and a hundred points of health, no more health
  // than the maximum; any other award is refused.
  lemma AwardGrants(s: Tables, c: nat, gold: int, heal: int)
    requires c in s.chars && s.chars[c].health <= s.chars[c].maxHealth
    ensures var t := Award(s, c, gold, heal);
            && (t.Some? <==> 0 <= gold <= 100 && 0 <= heal <= 100)
            && (t.Some? ==>
                  && OnlyPerson(s, t.value, c)
                  && var who, now := s.chars[c], t.value.chars[c];
                     && now == who.(gold := who.gold + gold * 10_000, health := now.health)
                     && now.health == if who.health + heal <= who.maxHealth then who.health + heal else who.maxHealth)
  {
    assert s.chars[c := s.chars[c]] == s.chars;
  }

  // An attack is made by the living, in the room they are in, which is one for fighting,
  // on a monster; it costs two stamina, which must be there.
  lemma AttackAllowed(w: Setting, s: Tables, op: Op, now: int)
    requires op.AttackOp? && Performed(w, s, op, now).Some?
    ensures var t := Performed(w, s, op, now).value;
            && op.c in s.chars && op.c in t.chars && t.chars[op.c].stamina == s.chars[op.c].stamina - 2 >= 0
            && s.chars[op.c].room == Some(op.r) && !s.chars[op.c].dead && s.chars[op.c].health >= 1
            && op.r in w.rooms && (w.rooms[op.r].kind == Normal || w.rooms[op.r].kind == Dungeon)
            && exists n :: n in s.npcs && n in op.named && s.npcs[n].room == op.r && s.npcs[n].hostile
  {
    var npcs := Respawned(s.npcs, op.r, now);
    var n := Chosen(Living(npcs, op.r), op.named).value;
    assert n in s.npcs && n in op.named && s.npcs[n].room == op.r && s.npcs[n].hostile;
    hide Best, Respawned, Living, HasCorpse, Unexpired, Min, Max, Chosen, Coins;
  }

  // Listing a room brings back its monsters that are due, at full health, and leaves the
  // living, the friendly and those of other rooms as they are.
  lemma LookRespawns(w: Setting, s: Tables, r: nat, now: int, n: nat)
    requires n in s.npcs
    ensures var t, m := Performed(w, s, LookOp(r), now), s.npcs[n];
            && t.Some? && t.value == s.(npcs := t.value.npcs) && n in t.value.npcs
            && t.value.npcs[n] ==
                 if m.room == r && m.hostile && m.health <= 0 && m.respawnAt.Some? && m.respawnAt.value <= now
                 then m.(health := m.maxHealth, respawnAt := None) else m
  {
  }

  // One item is taken iff it lies there, the pack holds less than fifty, and it is not a
  // quest item already carried.
  lemma TakeAllowed(w: Setting, s: Tables, c: nat, r: nat, named: set<nat>, i: nat)
    requires InRoom(s, c, r) && i in w.items && (r, i) in s.ground && i in named
    requires forall j :: j in w.items && (r, j) in s.ground && j in named ==> j == i
    ensures Take(w, s, c, r, named).Some? <==> Carried(s.pack, c) < 50 && !(w.items[i].quest && (c, i) in s.pack)
  {
    assert (r, i) in s.ground;
    assert Only(Lying(w, s.ground, r), named, i);
    hide Carried, Lift, Stow, Lying;
  }

  // One item is dropped iff it is carried and not worn.
  lemma DropAllowed(w: Setting, s: Tables, c: nat, r: nat, named: set<nat>, i: nat)
    requires InRoom(s, c, r) && i in w.items && (c, i) in s.pack && i in named
    requires forall j :: j in w.items && (c, j) in s.pack && j in named ==> j == i
    ensures Drop(w, s, c, r, named).Some? <==> !s.pack[(c, i)].equipped
  {
    assert (c, i) in s.pack;
    assert Only(Owned(w, s.pack, c), named, i);
    hide Unstow, Lay, Owned;
  }

  // Over any run nobody carries more than fifty.
  lemma PackLimit(w: Setting, s: Tables, ops: seq<(Op, int)>, c: nat)
    requires Stocked(w, s)
    ensures Carried(Ran(w, s, ops).pack, c) <= 50
  {
    RunStocked(w, s, ops);
    hide Ran;
  }

  // ---------------------------------------------------------------- equipment

  // In combat an equipped row is worth its damage, within 0 and 100, as a weapon, and its
  // defense, within 0 and 50, as armor; a character fights with the best of each it wears.
  lemma BestWorn(w: Setting, pack: Pack, c: nat, i: nat)
    requires (c, i) in pack && pack[(c, i)].equipped && pack[(c, i)].quantity > 0 && i in w.items
    requires forall j :: (c, j) in pack && pack[(c, j)].equipped && pack[(c, j)].quantity > 0 && j in w.items && j != i ==>
                           w.items[j].kind != w.items[i].kind
    ensures w.items[i].kind.Weapon? ==>
              var best := Best(w, pack, c, Weapon);
              if 0 <= w.items[i].damage <= 100 then best == w.items[i].damage
              else if w.items[i].damage < 0 then best == 0 else best == 100
    ensures w.items[i].kind.Armor? ==>
              var best := Best(w, pack, c, Armor);
              if 0 <= w.items[i].defense <= 50 then best == w.items[i].defense
              else if w.items[i].defense < 0 then best == 0 else best == 50
  {
    var kind := w.items[i].kind;
    var best := Best(w, pack, c, kind);
    assert IsBest(w, pack, c, kind, best);
    assert Worth(w, pack, (c, i), kind) <= best;
  }

  // Weapons and armor are put on, whether they are worn already or not; what is worn, and
  // nothing else, is taken off.
  lemma WearAllowed(w: Setting, s: Tables, c: nat, named: set<nat>, i: nat)
    requires i in w.items && (c, i) in s.pack && i in named
    requires forall j :: j in w.items && (c, j) in s.pack && j in named ==> j == i
    ensures Equip(w, s, c, named).Some? <==> w.items[i].kind == Weapon || w.items[i].kind == Armor
    ensures var t := Unequip(w, s, c, named);
            && (t.Some? <==> s.pack[(c, i)].equipped)
            && (t.Some? ==> t.value == s.(pack := s.pack[(c, i) := Held(s.pack[(c, i)].quantity, false)]))
  {
    assert (c, i) in s.pack;
    assert Only(Owned(w, s.pack, c), named, i);
    hide Wear, Owned;
  }

  lemma NothingWorn(w: Setting, pack: Pack, c: nat, kind: Kind)
    requires forall j :: (c, j) in pack && pack[(c, j)].equipped && pack[(c, j)].quantity >= 1 && j in w.items ==> w.items[j].kind != kind
    ensures Best(w, pack, c, kind) == 0
  {
    assert IsBest(w, pack, c, kind, Best(w, pack, c, kind));
  }
}
