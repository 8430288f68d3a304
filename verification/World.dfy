// The game operations as they run (internal/game): rows are read, adjusted and written
// back under a savepoint, and a failed operation is rolled back to it. Every operation
// is proved against its function in Realm.
module World {
  import opened Wrappers
  import opened Tally
  import opened WorldPlan
  import opened Realm

  // A nested transaction (internal/game/transaction.go): it ends once.
  class Savepoint {
    const world: World
    const saved: Tables
    var done: bool

    constructor (world: World)
      ensures this.world == world && saved == world.View() && !done
    {
      this.world, saved, done := world, world.View(), false;
    }

    method Commit() returns (ok: bool)
      modifies this
      ensures ok == !old(done) && done
    {
      ok := !done;
      done := true;
    }

    // Deferred by every operation: after a commit it does nothing.
    method Rollback() returns (ok: bool)
      modifies this, world
      ensures ok == !old(done) && done
      ensures world.View() == if old(done) then old(world.View()) else saved
    {
      if done {
        return false;
      }
      done := true;
      world.Restore(saved);
      return true;
    }
  }

  lemma BestUnique(w: Setting, pack: Pack, c: nat, kind: Kind, u: int, v: int)
    requires IsBest(w, pack, c, kind, u) && IsBest(w, pack, c, kind, v)
    ensures u == v
  {
  }

  class World {
    const w: Setting
    var chars: map<nat, Character>
    var pack: Pack
    var ground: Ground
    var npcs: map<nat, Npc>
    var corpses: map<nat, Corpse>
    var payments: seq<Payment>
    var deliveries: map<nat, nat>

    constructor (w: Setting, s: Tables)
      ensures this.w == w && View() == s
    {
      this.w := w;
      chars, pack, ground, npcs, corpses := s.chars, s.pack, s.ground, s.npcs, s.corpses;
      payments, deliveries := s.payments, s.deliveries;
    }

    function View(): Tables
      reads this
    {
      Tables(chars, pack, ground, npcs, corpses, payments, deliveries)
    }

    method Restore(s: Tables)
      modifies this
      ensures View() == s
    {
      chars, pack, ground, npcs, corpses := s.chars, s.pack, s.ground, s.npcs, s.corpses;
      payments, deliveries := s.payments, s.deliveries;
    }

    // ------------------------------------------------------------ queries

    // A typed name selects a row only when it matches exactly one.
    method FindNamed(candidates: set<nat>, named: set<nat>) returns (found: Option<nat>)
      ensures found == Chosen(candidates, named)
    {
      var matches: seq<nat> := [];
      var todo := candidates;
      while todo != {}
        invariant todo <= candidates
        invariant forall i :: i in matches <==> i in candidates && i in named && i !in todo
        invariant forall j, k :: 0 <= j < k < |matches| ==> matches[j] != matches[k]
        decreases todo
      {
        var i :| i in todo;
        todo := todo - {i};
        if i in named {
          matches := matches + [i];
        }
      }
      if |matches| == 1 {
        assert matches[0] in matches;
        assert Only(candidates, named, matches[0]);
        return Some(matches[0]);
      }
      if |matches| >= 2 {
        assert matches[0] in matches && matches[1] in matches;
      }
      return None;
    }

    method CountPack(c: nat) returns (n: int)
      ensures n == Carried(pack, c)
    {
      var rest := PackOf(pack, c);
      n := 0;
      while rest != map[]
        invariant n + Sum(rest) == Carried(pack, c)
        decreases |rest.Keys|
      {
        var k :| k in rest;
        SumAt(rest, k);
        assert (rest - {k}).Keys == rest.Keys - {k};
        n := n + rest[k];
        rest := rest - {k};
      }
    }

    // Running maxima over the equipped rows of one pack.
    method CombatEquipment(c: nat) returns (power: int, armor: int)
      ensures power == 5 + Best(w, pack, c, Weapon) && armor == Best(w, pack, c, Armor)
    {
      var weapon := 0;
      armor := 0;
      var todo := pack.Keys;
      while todo != {}
        invariant todo <= pack.Keys
        invariant IsBest(w, pack - todo, c, Weapon, weapon) && IsBest(w, pack - todo, c, Armor, armor)
        decreases todo
      {
        var k :| k in todo;
        ghost var before := pack - todo;
        todo := todo - {k};
        assert pack - todo - {k} == before;
        BestNext(w, pack - todo, c, Weapon, k, weapon);
        BestNext(w, pack - todo, c, Armor, k, armor);
        if k.0 == c && pack[k].equipped && pack[k].quantity > 0 && k.1 in w.items {
          if w.items[k.1].kind.Weapon? {
            weapon := Max(weapon, Min(100, Max(0, w.items[k.1].damage)));
          }
          if w.items[k.1].kind.Armor? {
            armor := Max(armor, Min(50, Max(0, w.items[k.1].defense)));
          }
        }
      }
      assert pack - todo == pack;
      BestUnique(w, pack, c, Weapon, weapon, Best(w, pack, c, Weapon));
      BestUnique(w, pack, c, Armor, armor, Best(w, pack, c, Armor));
      power := 5 + weapon;
    }

    // ------------------------------------------------------------ items

    method TakeItem(c: nat, r: nat, named: set<nat>) returns (ok: bool)
      modifies this
      ensures ok <==> Take(w, old(View()), c, r, named).Some?
      ensures View() == Take(w, old(View()), c, r, named).GetOr(old(View()))
    {
      hide Carried, Chosen;
      if c !in chars || chars[c].room != Some(r) {
        return false;
      }
      var chosen := FindNamed(Lying(w, ground, r), named);
      if chosen.None? {
        return false;
      }
      var i := chosen.value;
      var count := CountPack(c);
      if count >= CAPACITY {
        return false;
      }
      if w.items[i].quest && (c, i) in pack {
        return false;
      }
      var remaining := ground[(r, i)] - 1;
      if remaining <= 0 {
        ground := ground - {(r, i)};
      } else {
        ground := ground[(r, i) := remaining];
      }
      pack := pack[(c, i) := if (c, i) in pack then pack[(c, i)].(quantity := pack[(c, i)].quantity + 1) else Held(1, false)];
      return true;
    }

    lemma CountMoves(p: Pack, c: nat, i: nat, n: int)
      ensures Carried(Stow(p, c, i, n), c) == Carried(p, c) + n
    {
      var q := (if (c, i) in p then p[(c, i)].quantity else 0) + n;
      assert PackOf(Stow(p, c, i, n), c) == PackOf(p, c)[(c, i) := q];
      SumPut(PackOf(p, c), (c, i), q);
    }

    // Stack by stack, with a running count of what is carried. The order is arbitrary
    // here; the source lists stacks by name.
    method TakeEverything(c: nat, r: nat) returns (ok: bool, ghost order: seq<nat>)
      modifies this
      ensures ok <==> InRoom(old(View()), c, r)
      ensures ok ==> TakeAll(w, old(View()), c, r, order) == Some(View())
      ensures !ok ==> View() == old(View())
    {
      order := [];
      if c !in chars || chars[c].room != Some(r) {
        return false, [];
      }
      var listed := Lying(w, ground, r);
      var count := CountPack(c);
      hide Carried, GrabStack, Elements, Distinct;
      NothingListed();
      var todo := listed;
      while todo != {}
        invariant todo <= listed && count == Carried(pack, c)
        invariant Elements(order) == listed - todo && Distinct(order)
        invariant View() == Gather(w, old(View()), c, r, order)
        invariant forall i :: i in todo ==> i in w.items && (r, i) in ground
        decreases todo
      {
        var i :| i in todo;
        todo := todo - {i};
        Listed(order, i);
        assert (order + [i])[..|order|] == order;
        count := TakeStack(c, r, i, count);
        order := order + [i];
      }
      return true, order;
    }

    lemma NothingListed()
      ensures Elements([]) == {} && Distinct([])
    {
    }

    lemma Listed(order: seq<nat>, i: nat)
      requires Distinct(order) && i !in Elements(order)
      ensures Elements(order + [i]) == Elements(order) + {i} && Distinct(order + [i])
    {
      assert forall j :: j in order + [i] <==> j in order || j == i;
    }

    method TakeStack(c: nat, r: nat, i: nat, count: int) returns (total: int)
      requires i in w.items && (r, i) in ground && count == Carried(pack, c)
      modifies this`pack, this`ground
      ensures View() == GrabStack(w, old(View()), c, r, i) && total == Carried(pack, c)
      ensures forall k :: k in old(ground) && k != (r, i) ==> k in ground && ground[k] == old(ground)[k]
    {
      hide Carried, Lift, Stow;
      var quantity := Min(ground[(r, i)], CAPACITY - count);
      if quantity <= 0 || (w.items[i].quest && (c, i) in pack) {
        return count;
      }
      if w.items[i].quest {
        quantity := 1;
      }
      CountMoves(pack, c, i, quantity);
      MoveStack(c, r, i, quantity);
      return count + quantity;
    }

    method MoveStack(c: nat, r: nat, i: nat, quantity: int)
      requires (r, i) in ground && 1 <= quantity <= ground[(r, i)]
      modifies this`pack, this`ground
      ensures pack == Stow(old(pack), c, i, quantity) && ground == Lift(old(ground), r, i, quantity)
      ensures forall k :: k in old(ground) && k != (r, i) ==> k in ground && ground[k] == old(ground)[k]
    {
      if quantity == ground[(r, i)] {
        ground := ground - {(r, i)};
      } else {
        ground := ground[(r, i) := ground[(r, i)] - quantity];
      }
      pack := pack[(c, i) := if (c, i) in pack then pack[(c, i)].(quantity := pack[(c, i)].quantity + quantity) else Held(quantity, false)];
    }

    method Consume(c: nat, i: nat)
      requires (c, i) in pack
      modifies this`pack
      ensures pack == Unstow(old(pack), c, i)
    {
      if pack[(c, i)].quantity <= 1 {
        pack := pack - {(c, i)};
      } else {
        pack := pack[(c, i) := pack[(c, i)].(quantity := pack[(c, i)].quantity - 1)];
      }
    }

    method DropItem(c: nat, r: nat, named: set<nat>) returns (ok: bool)
      modifies this
      ensures ok <==> Drop(w, old(View()), c, r, named).Some?
      ensures View() == Drop(w, old(View()), c, r, named).GetOr(old(View()))
    {
      hide Chosen, Unstow;
      if c !in chars || chars[c].room != Some(r) {
        return false;
      }
      var chosen := FindNamed(Owned(w, pack, c), named);
      if chosen.None? || pack[(c, chosen.value)].equipped {
        return false;
      }
      Consume(c, chosen.value);
      var k := (r, chosen.value);
      ground := ground[k := if k in ground then ground[k] + 1 else 1];
      return true;
    }

    method UseItem(c: nat, named: set<nat>) returns (ok: bool)
      modifies this
      ensures ok <==> Use(w, old(View()), c, named).Some?
      ensures View() == Use(w, old(View()), c, named).GetOr(old(View()))
    {
      hide Chosen, Unstow;
      var chosen := FindNamed(Owned(w, pack, c), named);
      if chosen.None? || c !in chars {
        return false;
      }
      var item := w.items[chosen.value];
      var health, stamina := chars[c].health, chars[c].stamina;
      if item.healing.Some? {
        health := health + item.healing.value;
        if health > chars[c].maxHealth {
          health := chars[c].maxHealth;
        }
      } else if item.restores.Some? {
        stamina := stamina + item.restores.value;
        if stamina > chars[c].maxStamina {
          stamina := chars[c].maxStamina;
        }
      } else {
        return false;
      }
      if health < 0 || stamina < 0 {
        return false;
      }
      Consume(c, chosen.value);
      chars := chars[c := chars[c].(health := health, stamina := stamina)];
      return true;
    }

    method TakeOff(c: nat, kind: Kind)
      modifies this`pack
      ensures pack == map k | k in old(pack) ::
                if k.0 == c && k.1 in w.items && w.items[k.1].kind == kind then old(pack)[k].(equipped := false) else old(pack)[k]
    {
      var todo := pack.Keys;
      while todo != {}
        invariant todo <= pack.Keys == old(pack).Keys
        invariant forall k :: k in pack ==>
                    (pack[k] == if k !in todo && k.0 == c && k.1 in w.items && w.items[k.1].kind == kind
                                then old(pack)[k].(equipped := false) else old(pack)[k])
        decreases todo
      {
        var k :| k in todo;
        todo := todo - {k};
        if k.0 == c && pack[k].equipped && k.1 in w.items && w.items[k.1].kind == kind {
          pack := pack[k := pack[k].(equipped := false)];
        }
      }
    }

    method EquipItem(c: nat, named: set<nat>) returns (ok: bool)
      modifies this
      ensures ok <==> Equip(w, old(View()), c, named).Some?
      ensures View() == Equip(w, old(View()), c, named).GetOr(old(View()))
    {
      hide Chosen;
      var chosen := FindNamed(Owned(w, pack, c), named);
      if chosen.None? {
        return false;
      }
      var k := (c, chosen.value);
      if w.items[k.1].kind.Plain? {
        return false;
      }
      if pack[k].equipped {
        return true;
      }
      TakeOff(c, w.items[k.1].kind);
      pack := pack[k := pack[k].(equipped := true)];
      assert pack == Wear(w, old(pack), c, k.1);
      return true;
    }

    method UnequipItem(c: nat, named: set<nat>) returns (ok: bool)
      modifies this
      ensures ok <==> Unequip(w, old(View()), c, named).Some?
      ensures View() == Unequip(w, old(View()), c, named).GetOr(old(View()))
    {
      hide Chosen;
      var chosen := FindNamed(Owned(w, pack, c), named);
      if chosen.None? || !pack[(c, chosen.value)].equipped {
        return false;
      }
      pack := pack[(c, chosen.value) := pack[(c, chosen.value)].(equipped := false)];
      return true;
    }

    // ------------------------------------------------------------ combat

    method RespawnNPCs(r: nat, now: int)
      modifies this`npcs
      ensures npcs == Respawned(old(npcs), r, now)
    {
      var todo := npcs.Keys;
      while todo != {}
        invariant todo <= npcs.Keys == old(npcs).Keys
        invariant forall n :: n in npcs ==> npcs[n] == if n in todo then old(npcs)[n] else Respawned(old(npcs), r, now)[n]
        decreases todo
      {
        var n :| n in todo;
        todo := todo - {n};
        var npc := npcs[n];
        if npc.room == r && npc.hostile && npc.health <= 0 && npc.respawnAt.Some? && npc.respawnAt.value <= now {
          npcs := npcs[n := npc.(health := npc.maxHealth, respawnAt := None)];
        }
      }
    }

    method DeleteExpired(now: int)
      modifies this`corpses
      ensures corpses == Unexpired(old(corpses), now)
    {
      var todo := corpses.Keys;
      while todo != {}
        invariant todo <= corpses.Keys <= old(corpses).Keys
        invariant forall k :: k in old(corpses) ==> (k in corpses <==> k in todo || old(corpses)[k].expires > now)
        invariant forall k :: k in corpses ==> corpses[k] == old(corpses)[k]
        decreases todo
      {
        var k :| k in todo;
        todo := todo - {k};
        if corpses[k].expires <= now {
          corpses := corpses - {k};
        }
      }
    }

    // One round, or nothing at all.
    method AttackMonster(c: nat, r: nat, named: set<nat>, luck: Luck, now: int) returns (ok: bool)
      requires LuckOk(luck, corpses)
      modifies this
      ensures ok <==> Attack(w, old(View()), c, r, named, luck, now).Some?
      ensures View() == Attack(w, old(View()), c, r, named, luck, now).GetOr(old(View()))
    {
      hide Attack;
      var tx := new Savepoint(this);
      ok := Strike(c, r, named, luck, now);
      if ok {
        var committed := tx.Commit();
      }
      var undone := tx.Rollback();
    }

    method Strike(c: nat, r: nat, named: set<nat>, luck: Luck, now: int) returns (ok: bool)
      requires LuckOk(luck, corpses)
      modifies this
      ensures ok <==> Attack(w, old(View()), c, r, named, luck, now).Some?
      ensures ok ==> View() == Attack(w, old(View()), c, r, named, luck, now).value
    {
      hide Chosen, Best, Slay, Suffer;
      if c !in chars || chars[c].room != Some(r) {
        return false;
      }
      if chars[c].dead || chars[c].health <= 0 || chars[c].stamina < ATTACK_COST {
        return false;
      }
      if r !in w.rooms || !(w.rooms[r].kind.Normal? || w.rooms[r].kind.Dungeon?) {
        return false;
      }
      RespawnNPCs(r, now);
      var target := FindNamed(Living(npcs, r), named);
      if target.None? || !npcs[target.value].hostile {
        return false;
      }
      var t := target.value;
      var power, armor := CombatEquipment(c);
      var damage := Min(npcs[t].health, Max(1, power - npcs[t].defense));
      var left := npcs[t].health - damage;
      if left == 0 {
        ok := Kill(c, r, t, luck, now);
      } else {
        var hit := Min(chars[c].health, Max(1, npcs[t].attack - armor));
        ok := TakeHit(c, r, t, left, hit, now);
      }
    }

    method Kill(c: nat, r: nat, t: nat, luck: Luck, now: int) returns (ok: bool)
      requires c in chars && t in npcs && LuckOk(luck, corpses)
      modifies this
      ensures ok <==> Slay(old(View()), c, r, t, luck, now).Some?
      ensures ok ==> View() == Slay(old(View()), c, r, t, luck, now).value
    {
      DeleteExpired(now);
      var npc := npcs[t];
      var coin := npc.gold * COPPER_PER_GOLD + luck.silver * COPPER_PER_SILVER + luck.copper;
      var dropped := None;
      if npc.loot.Some? && luck.roll < npc.chance {
        dropped := npc.loot;
      }
      // The unique index refuses a second corpse of the monster.
      var clash := FindCorpse(t);
      if clash {
        return false;
      }
      corpses := corpses[luck.corpse := Corpse(t, r, c, coin, dropped, false, dropped.None?, now + CORPSE_LIFE)];
      npcs := npcs[t := npc.(health := 0, respawnAt := Some(now + npc.respawn * SECOND))];
      var who := chars[c];
      chars := chars[c := who.(stamina := who.stamina - ATTACK_COST, experience := who.experience + npc.experience)];
      return true;
    }

    method FindCorpse(t: nat) returns (found: bool)
      ensures found <==> HasCorpse(corpses, t)
    {
      var todo := corpses.Keys;
      while todo != {}
        invariant todo <= corpses.Keys
        invariant forall k :: k in corpses && k !in todo ==> corpses[k].npc != t || !Active(corpses[k])
        decreases todo
      {
        var k :| k in todo;
        todo := todo - {k};
        if corpses[k].npc == t && !(corpses[k].coinLooted && corpses[k].itemLooted) {
          return true;
        }
      }
      return false;
    }

    method TakeHit(c: nat, r: nat, t: nat, left: int, hit: int, now: int) returns (ok: bool)
      requires c in chars && t in npcs
      modifies this
      ensures ok <==> Suffer(w, old(View()), c, r, t, left, hit, now).Some?
      ensures ok ==> View() == Suffer(w, old(View()), c, r, t, left, hit, now).value
    {
      var who := chars[c];
      var health, room, defeated := who.health - hit, who.room, false;
      if health == 0 {
        if w.hall.None? {
          return false;
        }
        room, defeated := w.hall, true;
      }
      npcs := npcs[t := npcs[t].(health := left, respawnAt := None)];
      who := who.(health := health, stamina := who.stamina - ATTACK_COST, room := room);
      if defeated {
        who := who.(dead := true, died := Some(now), ready := Some(now + RESURRECTION_DELAY), deathRoom := Some(r));
      }
      chars := chars[c := who];
      return true;
    }

    // ------------------------------------------------------------ corpses

    method LootCorpse(c: nat, r: nat, named: set<nat>, now: int) returns (ok: bool)
      modifies this
      ensures ok <==> Loot(w, old(View()), c, r, named, now).Some?
      ensures View() == Loot(w, old(View()), c, r, named, now).GetOr(old(View()))
    {
      hide Loot;
      var tx := new Savepoint(this);
      ok := Plunder(c, r, named, now);
      if ok {
        var committed := tx.Commit();
      }
      var undone := tx.Rollback();
    }

    method Plunder(c: nat, r: nat, named: set<nat>, now: int) returns (ok: bool)
      modifies this
      ensures ok <==> Loot(w, old(View()), c, r, named, now).Some?
      ensures ok ==> View() == Loot(w, old(View()), c, r, named, now).value
    {
      hide Chosen, LootFrom, Unexpired;
      if c !in chars || chars[c].room != Some(r) || chars[c].dead {
        return false;
      }
      DeleteExpired(now);
      var chosen := FindNamed(Lootable(corpses, r), named);
      if chosen.None? || corpses[chosen.value].owner != c {
        return false;
      }
      ok := Empty(c, chosen.value);
    }

    // Coin first, then the item if there is room; a corpse with nothing left goes.
    method Empty(c: nat, k: nat) returns (ok: bool)
      requires c in chars && k in corpses
      modifies this
      ensures ok <==> LootFrom(w, old(View()), c, k).Some?
      ensures ok ==> View() == LootFrom(w, old(View()), c, k).value
    {
      hide Carried;
      var b := corpses[k];
      var coinLooted, itemLooted := b.coinLooted, b.itemLooted;
      if !coinLooted {
        chars := chars[c := chars[c].(gold := chars[c].gold + b.coin)];
        coinLooted := true;
      }
      assert chars == old(chars)[c := if b.coinLooted then old(chars)[c] else old(chars)[c].(gold := old(chars)[c].gold + b.coin)];
      if b.item.Some? && !itemLooted {
        var count := CountPack(c);
        if count < CAPACITY {
          var i := b.item.value;
          if i !in w.items {
            return false;
          }
          pack := pack[(c, i) := if (c, i) in pack then pack[(c, i)].(quantity := pack[(c, i)].quantity + 1) else Held(1, false)];
          itemLooted := true;
        }
      }
      if coinLooted && itemLooted {
        corpses := corpses - {k};
      } else {
        corpses := corpses[k := b.(coinLooted := coinLooted, itemLooted := itemLooted)];
      }
      return true;
    }

    // ------------------------------------------------------------ people

    method ResurrectCharacter(c: nat, pay: bool, costGold: int, clock: int) returns (ok: bool)
      modifies this
      ensures var cost := costGold * COPPER_PER_GOLD;
              && (ok <==> Resurrect(w, old(View()), c, pay, cost, clock).Some?)
              && View() == Resurrect(w, old(View()), c, pay, cost, clock).GetOr(old(View()))
    {
      if c !in chars || chars[c].ready.None? || chars[c].room.None? {
        return false;
      }
      var who := chars[c];
      if !who.dead || w.hall.None? || who.room != w.hall {
        return false;
      }
      var cost := costGold * COPPER_PER_GOLD;
      var balance := who.gold;
      if pay {
        if balance < cost || cost < 0 {
          return false;
        }
        balance := balance - cost;
        payments := payments + [Payment(c, cost)];
      } else if who.ready.value > clock {
        return false;
      }
      var health := Max(1, who.maxHealth / 2);
      chars := chars[c := who.(health := health, stamina := who.maxStamina, gold := balance,
                               dead := false, died := None, ready := None, deathRoom := None)];
      return true;
    }

    method GiveItem(c: nat, r: nat, items: set<nat>, named: set<nat>) returns (ok: bool)
      modifies this
      ensures ok <==> Give(w, old(View()), c, r, items, named).Some?
      ensures View() == Give(w, old(View()), c, r, items, named).GetOr(old(View()))
    {
      hide Chosen;
      if c !in chars || chars[c].room != Some(r) {
        return false;
      }
      var to := FindNamed(Living(npcs, r), named);
      if to.None? || !npcs[to.value].crier {
        return false;
      }
      var chosen := FindNamed(Owned(w, pack, c), items);
      if chosen.None? || chosen.value != w.manifest || w.docks.None? {
        return false;
      }
      pack := pack - {(c, chosen.value)};
      var who := chars[c];
      var stamina := who.stamina + 20;
      if stamina > who.maxStamina {
        stamina := who.maxStamina;
      }
      chars := chars[c := who.(gold := who.gold + REWARD_GOLD * COPPER_PER_GOLD, stamina := stamina)];
      deliveries := deliveries[c := 1 + if c in deliveries then deliveries[c] else 0];
      ground := ground[(w.docks.value, w.manifest) := 1];
      return true;
    }

    method RestAtInn(c: nat, r: nat) returns (ok: bool)
      modifies this
      ensures ok <==> Rest(w, old(View()), c, r).Some?
      ensures View() == Rest(w, old(View()), c, r).GetOr(old(View()))
    {
      if r !in w.rooms || !w.rooms[r].kind.Inn? || c !in chars || chars[c].room != Some(r) {
        return false;
      }
      chars := chars[c := chars[c].(health := chars[c].maxHealth, stamina := chars[c].maxStamina)];
      return true;
    }

    method MoveCharacter(c: nat, d: Direction) returns (ok: bool)
      modifies this
      ensures ok <==> Move(w, old(View()), c, d).Some?
      ensures View() == Move(w, old(View()), c, d).GetOr(old(View()))
    {
      if c !in chars || chars[c].room.None? || chars[c].dead || chars[c].room.value !in w.rooms {
        return false;
      }
      var exits := w.rooms[chars[c].room.value].exits;
      if d !in exits || exits[d] !in w.rooms {
        return false;
      }
      var stamina := chars[c].stamina - MOVE_COST;
      if stamina < 0 {
        stamina := 0;
      }
      chars := chars[c := chars[c].(room := Some(exits[d]), stamina := stamina)];
      return true;
    }

    // The effects of a script that ran without error.
    method AwardScript(c: nat, gold: int, heal: int) returns (ok: bool)
      modifies this
      ensures ok <==> Award(old(View()), c, gold, heal).Some?
      ensures View() == Award(old(View()), c, gold, heal).GetOr(old(View()))
    {
      if c !in chars || !(0 <= gold <= 100) || !(0 <= heal <= 100) {
        return false;
      }
      if gold != 0 || heal != 0 {
        var who := chars[c];
        chars := chars[c := who.(gold := who.gold + gold * COPPER_PER_GOLD, health := Min(who.maxHealth, who.health + heal))];
      }
      return true;
    }
  }
}
