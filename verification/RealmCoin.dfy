// The coin ledger: where every copper comes from and goes.
module RealmCoin {
  import opened Wrappers
  import opened Tally
  import opened WorldPlan
  import opened Realm
  import opened RealmSafety
  import opened RealmStock

  function Purses(chars: map<nat, Character>): map<nat, int> {
    map c | c in chars :: chars[c].gold
  }

  function Hoard(corpses: map<nat, Corpse>): map<nat, int> {
    map k | k in corpses && !corpses[k].coinLooted :: corpses[k].coin
  }

  // All coin there is: what characters carry and what lies on corpses.
  ghost function Coin(s: Tables): int {
    Sum(Purses(s.chars)) + Sum(Hoard(s.corpses))
  }

  function Paid(payments: seq<Payment>): int {
    if payments == [] then 0 else Paid(payments[..|payments| - 1]) + payments[|payments| - 1].amount
  }

  function StaleCoin(corpses: map<nat, Corpse>, now: int): map<nat, int> {
    map k | k in corpses && !corpses[k].coinLooted && corpses[k].expires <= now :: corpses[k].coin
  }

  lemma PurseSet(chars: map<nat, Character>, c: nat, who: Character)
    requires c in chars
    ensures Sum(Purses(chars[c := who])) == Sum(Purses(chars)) - chars[c].gold + who.gold
  {
    assert Purses(chars[c := who]) == Purses(chars)[c := who.gold];
    SumPut(Purses(chars), c, who.gold);
  }

  lemma HoardSet(corpses: map<nat, Corpse>, k: nat, b: Corpse)
    ensures Sum(Hoard(corpses[k := b])) == Sum(Hoard(corpses - {k})) + if b.coinLooted then 0 else b.coin
    ensures Sum(Hoard(corpses)) == Sum(Hoard(corpses - {k})) + if k in corpses && !corpses[k].coinLooted then corpses[k].coin else 0
  {
    var rest := corpses - {k};
    if b.coinLooted {
      assert Hoard(corpses[k := b]) == Hoard(rest);
    } else {
      assert Hoard(corpses[k := b]) == Hoard(rest)[k := b.coin];
      SumPut(Hoard(rest), k, b.coin);
    }
    if k in corpses && !corpses[k].coinLooted {
      assert Hoard(corpses) == Hoard(rest)[k := corpses[k].coin];
      SumPut(Hoard(rest), k, corpses[k].coin);
    } else {
      assert Hoard(corpses) == Hoard(rest);
    }
  }

  lemma HoardExpires(corpses: map<nat, Corpse>, now: int)
    ensures Sum(Hoard(Unexpired(corpses, now))) == Sum(Hoard(corpses)) - Sum(StaleCoin(corpses, now))
  {
    var stale := set k | k in corpses && corpses[k].expires <= now;
    var all := Hoard(corpses);
    SumSplit(all, stale);
    assert all - stale == Hoard(Unexpired(corpses, now));
    assert (map k | k in all && k in stale :: all[k]) == StaleCoin(corpses, now);
  }

  // ---------------------------------------------------------------- single operations

  // A killing blow: its corpse is the one named by the luck of the blow.
  ghost predicate Kills(w: Setting, s: Tables, op: Op, now: int) {
    op.AttackOp? && Performed(w, s, op, now).Some? && op.luck.corpse in Performed(w, s, op, now).value.corpses
  }

  // Coin that an operation brings into the world.
  ghost function Minted(w: Setting, s: Tables, op: Op, now: int): int {
    var t := Performed(w, s, op, now);
    if t.None? then 0
    else if Kills(w, s, op, now) then t.value.corpses[op.luck.corpse].coin
    else if op.GiveOp? then REWARD_GOLD * COPPER_PER_GOLD
    else if op.AwardOp? then op.gold * COPPER_PER_GOLD
    else 0
  }

  // Coin that expired corpses take out of it.
  ghost function Lapsed(w: Setting, s: Tables, op: Op, now: int): int {
    if Performed(w, s, op, now).Some? && (Kills(w, s, op, now) || op.LootOp? || op.SearchOp?)
    then Sum(StaleCoin(s.corpses, now)) else 0
  }

  // What an attack leaves behind, kill or not.
  lemma AttackTables(w: Setting, s: Tables, c: nat, r: nat, named: set<nat>, luck: Luck, now: int)
    requires LuckOk(luck, s.corpses) && Attack(w, s, c, r, named, luck, now).Some?
    ensures var u := Attack(w, s, c, r, named, luck, now).value;
            && c in s.chars && c in u.chars && u.chars == s.chars[c := u.chars[c]] && u.chars[c].gold == s.chars[c].gold
            && u.pack == s.pack && u.ground == s.ground && u.payments == s.payments
            && (if luck.corpse in u.corpses then
                  u.corpses == Unexpired(s.corpses, now)[luck.corpse := u.corpses[luck.corpse]]
                  && (var b := u.corpses[luck.corpse];
                      !b.coinLooted && b.owner == c && b.room == r && b.expires == now + CORPSE_LIFE
                      && b.npc in s.npcs && u.npcs[b.npc].health == 0
                      && b.coin == Coins(s.npcs[b.npc], luck) && !HasCorpse(Unexpired(s.corpses, now), b.npc)
                      && (b.item.None? ==> b.itemLooted) && (b.item.Some? ==> !b.itemLooted && b.item == s.npcs[b.npc].loot))
                else u.corpses == s.corpses)
  {
    var npcs := Respawned(s.npcs, r, now);
    var t := Chosen(Living(npcs, r), named).value;
    var left := npcs[t].health - Min(npcs[t].health, Max(1, 5 + Best(w, s.pack, c, Weapon) - npcs[t].defense));
    var hit := Min(s.chars[c].health, Max(1, npcs[t].attack - Best(w, s.pack, c, Armor)));
    var u := s.(npcs := npcs);
    assert Attack(w, s, c, r, named, luck, now) ==
           if left == 0 then Slay(u, c, r, t, luck, now) else Suffer(w, u, c, r, t, left, hit, now) by {
      hide Best, Slay, Suffer, Respawned, Living, Min, Max, LuckOk;
    }
    hide Attack, Chosen, Best, HasCorpse, Living, Min, Max;
  }

  lemma AttackCoin(w: Setting, s: Tables, c: nat, r: nat, named: set<nat>, luck: Luck, now: int)
    requires LuckOk(luck, s.corpses) && Attack(w, s, c, r, named, luck, now).Some?
    ensures var u := Attack(w, s, c, r, named, luck, now).value;
            Coin(u) == Coin(s) + if luck.corpse in u.corpses then u.corpses[luck.corpse].coin - Sum(StaleCoin(s.corpses, now)) else 0
  {
    AttackTables(w, s, c, r, named, luck, now);
    hide Attack, Purses, Hoard, StaleCoin, HasCorpse;
    var u := Attack(w, s, c, r, named, luck, now).value;
    PurseSet(s.chars, c, u.chars[c]);
    if luck.corpse in u.corpses {
      var live := Unexpired(s.corpses, now);
      HoardExpires(s.corpses, now);
      HoardSet(live, luck.corpse, u.corpses[luck.corpse]);
    }
  }

  // A corpse pays its owner and nobody else, and pays once: the coin it held is added to
  // the purse if it was still there, and is not there afterwards.
  lemma LootPays(w: Setting, s: Tables, c: nat, r: nat, named: set<nat>, now: int) returns (k: nat)
    requires Loot(w, s, c, r, named, now).Some?
    ensures k in s.corpses && s.corpses[k].owner == c && s.corpses[k].room == r && s.corpses[k].expires > now && c in s.chars
    ensures var u := Loot(w, s, c, r, named, now).value;
            && c in u.chars && u.chars == s.chars[c := s.chars[c].(gold := u.chars[c].gold)]
            && u.chars[c].gold == s.chars[c].gold + (if s.corpses[k].coinLooted then 0 else s.corpses[k].coin)
            && (k in u.corpses ==> u.corpses[k] == s.corpses[k].(coinLooted := true))
            && (k in u.corpses <==> !s.corpses[k].itemLooted && (s.corpses[k].item.None? || Carried(s.pack, c) >= CAPACITY))
            && u.corpses - {k} == Unexpired(s.corpses, now) - {k} && u.payments == s.payments
  {
    hide Chosen, Carried, Stow;
    k := Chosen(Lootable(Unexpired(s.corpses, now), r), named).value;
    assert s.chars[c := s.chars[c]] == s.chars;
  }

  lemma LootCoin(w: Setting, s: Tables, c: nat, r: nat, named: set<nat>, now: int)
    requires Loot(w, s, c, r, named, now).Some?
    ensures Coin(Loot(w, s, c, r, named, now).value) == Coin(s) - Sum(StaleCoin(s.corpses, now))
  {
    var k := LootPays(w, s, c, r, named, now);
    hide Loot, Purses, Hoard, StaleCoin;
    var u := Loot(w, s, c, r, named, now).value;
    var live := Unexpired(s.corpses, now);
    HoardExpires(s.corpses, now);
    PurseSet(s.chars, c, s.chars[c].(gold := u.chars[c].gold));
    assert live[k] == s.corpses[k];
    HoardSet(live, k, live[k]);
    if k in u.corpses {
      HoardSet(u.corpses, k, u.corpses[k]);
    } else {
      assert u.corpses == u.corpses - {k};
    }
  }

  lemma SameCoin(s: Tables, t: Tables)
    requires t.chars == s.chars && t.corpses == s.corpses && t.payments == s.payments
    ensures Coin(t) == Coin(s) && Paid(t.payments) == Paid(s.payments)
  {
  }

  lemma PersonCoin(s: Tables, t: Tables, c: nat)
    requires c in s.chars && c in t.chars && t.chars == s.chars[c := t.chars[c]]
    requires t.corpses == s.corpses
    ensures Coin(t) == Coin(s) + t.chars[c].gold - s.chars[c].gold
  {
    PurseSet(s.chars, c, t.chars[c]);
  }

  lemma PaymentAdded(payments: seq<Payment>, p: Payment)
    ensures Paid(payments + [p]) == Paid(payments) + p.amount
  {
    assert (payments + [p])[..|payments|] == payments;
  }

  // Every operation balances: coin there is and coin paid to the wardens change only by
  // what is minted and what lapses.
  lemma OpBalances(w: Setting, s: Tables, op: Op, now: int)
    ensures var t := Stepped(w, s, op, now);
            Coin(t) + Paid(t.payments) == Coin(s) + Paid(s.payments) + Minted(w, s, op, now) - Lapsed(w, s, op, now)
  {
    hide Coin, Purses, Hoard, StaleCoin, Chosen, Gather, Stow, Unstow, Lift, Lay, Carried, Wear, Attack, Loot, Paid;
    var t := Stepped(w, s, op, now);
    if Performed(w, s, op, now).Some? {
      match op
      case TakeOp(_, _, _) => SameCoin(s, t);
      case TakeAllOp(_, _, _) => SameCoin(s, t);
      case DropOp(_, _, _) => SameCoin(s, t);
      case EquipOp(_, _) => SameCoin(s, t);
      case UnequipOp(_, _) => SameCoin(s, t);
      case LookOp(_) => SameCoin(s, t);
      case UseOp(c, _) => PersonCoin(s, t, c);
      case RestOp(c, _) => PersonCoin(s, t, c);
      case MoveOp(c, _) => PersonCoin(s, t, c);
      case AwardOp(c, _, _) => AwardBalances(w, s, op, now);
      case GiveOp(c, _, _, _) => PersonCoin(s, t, c);
      case ResurrectOp(c, pay, cost, _) =>
        PersonCoin(s, t, c);
        PaymentAdded(s.payments, Payment(c, cost));
      case AttackOp(c, r, named, luck) =>
        AttackCoin(w, s, c, r, named, luck, now);
        AttackTables(w, s, c, r, named, luck, now);
      case LootOp(c, r, named) =>
        LootCoin(w, s, c, r, named, now);
        var k := LootPays(w, s, c, r, named, now);
      case SearchOp(_) =>
        SearchBalances(s, now);
    }
  }

  lemma SearchBalances(s: Tables, now: int)
    ensures Coin(s.(corpses := Unexpired(s.corpses, now))) == Coin(s) - Sum(StaleCoin(s.corpses, now))
  {
    HoardExpires(s.corpses, now);
  }

  lemma AwardBalances(w: Setting, s: Tables, op: Op, now: int)
    requires op.AwardOp? && Performed(w, s, op, now).Some?
    ensures var t := Performed(w, s, op, now).value;
            Coin(t) == Coin(s) + op.gold * COPPER_PER_GOLD && t.payments == s.payments
  {
    if op.gold != 0 || op.heal != 0 {
      PersonCoin(s, Performed(w, s, op, now).value, op.c);
    }
  }

  // ---------------------------------------------------------------- over runs

  ghost function TotalMinted(w: Setting, s: Tables, ops: seq<(Op, int)>): int {
    if ops == [] then 0
    else
      var n := |ops| - 1;
      TotalMinted(w, s, ops[..n]) + Minted(w, Ran(w, s, ops[..n]), ops[n].0, ops[n].1)
  }

  ghost function TotalLapsed(w: Setting, s: Tables, ops: seq<(Op, int)>): int {
    if ops == [] then 0
    else
      var n := |ops| - 1;
      TotalLapsed(w, s, ops[..n]) + Lapsed(w, Ran(w, s, ops[..n]), ops[n].0, ops[n].1)
  }

  // The ledger over any run: balances and unlooted coin are what there was, plus coin
  // minted by kills, deliveries and scripts, minus recorded resurrection payments and
  // the coin on expired corpses.
  lemma {:induction false} LedgerBalances(w: Setting, s: Tables, ops: seq<(Op, int)>)
    ensures var t := Ran(w, s, ops);
            Coin(t) == Coin(s) + TotalMinted(w, s, ops) - (Paid(t.payments) - Paid(s.payments)) - TotalLapsed(w, s, ops)
  {
    hide Coin, Stepped, Minted, Lapsed, Paid;
    if ops != [] {
      var n := |ops| - 1;
      LedgerBalances(w, s, ops[..n]);
      OpBalances(w, Ran(w, s, ops[..n]), ops[n].0, ops[n].1);
    }
  }

  // No purse is in debt, and no monster or corpse carries less than nothing.
  ghost predicate Solvent(s: Tables) {
    && (forall c :: c in s.chars ==> s.chars[c].gold >= 0)
    && (forall n :: n in s.npcs ==> s.npcs[n].gold >= 0)
    && (forall k :: k in s.corpses ==> s.corpses[k].coin >= 0)
  }

  lemma AttackSolvent(w: Setting, s: Tables, c: nat, r: nat, named: set<nat>, luck: Luck, now: int)
    requires Solvent(s) && LuckOk(luck, s.corpses) && Attack(w, s, c, r, named, luck, now).Some?
    ensures Solvent(Attack(w, s, c, r, named, luck, now).value)
  {
    AttackTables(w, s, c, r, named, luck, now);
    AttackNpcs(w, s, c, r, named, luck, now);
    hide Attack, HasCorpse;
  }

  // NPCs neither move nor change what they carry.
  predicate SamePosts(a: map<nat, Npc>, b: map<nat, Npc>) {
    forall n :: n in b ==> n in a && b[n].gold == a[n].gold && b[n].room == a[n].room
  }

  lemma BlowNpcs(w: Setting, s: Tables, c: nat, r: nat, t: nat, luck: Luck, left: int, hit: int, now: int)
    requires c in s.chars && t in s.npcs
    ensures Slay(s, c, r, t, luck, now).Some? ==> SamePosts(s.npcs, Slay(s, c, r, t, luck, now).value.npcs)
    ensures Suffer(w, s, c, r, t, left, hit, now).Some? ==> SamePosts(s.npcs, Suffer(w, s, c, r, t, left, hit, now).value.npcs)
  {
    hide HasCorpse;
  }

  lemma RespawnedPosts(npcs: map<nat, Npc>, r: nat, now: int)
    ensures SamePosts(npcs, Respawned(npcs, r, now))
  {
  }

  lemma PostsTransitive(a: map<nat, Npc>, b: map<nat, Npc>, c: map<nat, Npc>)
    requires SamePosts(a, b) && SamePosts(b, c)
    ensures SamePosts(a, c)
  {
  }

  lemma AttackNpcs(w: Setting, s: Tables, c: nat, r: nat, named: set<nat>, luck: Luck, now: int)
    requires Attack(w, s, c, r, named, luck, now).Some?
    ensures SamePosts(s.npcs, Attack(w, s, c, r, named, luck, now).value.npcs)
  {
    var npcs := Respawned(s.npcs, r, now);
    var u := s.(npcs := npcs);
    var t := Chosen(Living(npcs, r), named).value;
    var left := npcs[t].health - Min(npcs[t].health, Max(1, 5 + Best(w, s.pack, c, Weapon) - npcs[t].defense));
    var hit := Min(s.chars[c].health, Max(1, npcs[t].attack - Best(w, s.pack, c, Armor)));
    assert Attack(w, s, c, r, named, luck, now) ==
           if left == 0 then Slay(u, c, r, t, luck, now) else Suffer(w, u, c, r, t, left, hit, now) by {
      hide Best, Slay, Suffer, Respawned, Living, Min, Max;
    }
    hide *;
    RespawnedPosts(s.npcs, r, now);
    BlowNpcs(w, u, c, r, t, luck, left, hit, now);
    PostsTransitive(s.npcs, npcs, Attack(w, s, c, r, named, luck, now).value.npcs);
  }

  lemma LootSolvent(w: Setting, s: Tables, c: nat, r: nat, named: set<nat>, now: int)
    requires Solvent(s) && Loot(w, s, c, r, named, now).Some?
    ensures Solvent(Loot(w, s, c, r, named, now).value)
  {
    hide Chosen, Stow, Carried;
  }

  lemma OpSolvent(w: Setting, s: Tables, op: Op, now: int)
    requires Solvent(s)
    ensures Solvent(Stepped(w, s, op, now))
  {
    hide Chosen, Gather, Stow, Unstow, Lift, Lay, Carried, Wear, Attack, Loot, LuckOk;
    if Performed(w, s, op, now).Some? {
      if op.AttackOp? {
        AttackSolvent(w, s, op.c, op.r, op.named, op.luck, now);
      }
      if op.LootOp? {
        LootSolvent(w, s, op.c, op.r, op.named, now);
      }
    }
  }

  lemma {:induction false} RunSolvent(w: Setting, s: Tables, ops: seq<(Op, int)>)
    requires Solvent(s)
    ensures Solvent(Ran(w, s, ops))
  {
    hide Stepped, Solvent;
    if ops != [] {
      var n := |ops| - 1;
      RunSolvent(w, s, ops[..n]);
      OpSolvent(w, Ran(w, s, ops[..n]), ops[n].0, ops[n].1);
    }
  }

  // No balance is ever negative, whatever the catalogue of items.
  lemma NoDebt(w: Setting, s: Tables, ops: seq<(Op, int)>, c: nat)
    requires Solvent(s) && c in Ran(w, s, ops).chars
    ensures Ran(w, s, ops).chars[c].gold >= 0
  {
    hide Ran;
    RunSolvent(w, s, ops);
  }

  // A corpse that has paid never pays again: its coin stays looted until it is gone.
  lemma PaidStays(w: Setting, s: Tables, op: Op, now: int, k: nat)
    requires k !in s.corpses || s.corpses[k].coinLooted
    requires op.AttackOp? ==> op.luck.corpse != k
    ensures var t := Stepped(w, s, op, now); k !in t.corpses || t.corpses[k].coinLooted
  {
    hide Chosen, Gather, Stow, Unstow, Lift, Lay, Carried, Wear, Attack, Loot;
    if Performed(w, s, op, now).Some? {
      if op.AttackOp? {
        AttackTables(w, s, op.c, op.r, op.named, op.luck, now);
      }
      if op.LootOp? {
        var j := LootPays(w, s, op.c, op.r, op.named, now);
        var u := Loot(w, s, op.c, op.r, op.named, now).value;
        assert k != j && k in u.corpses ==> k in u.corpses - {j};
      }
    }
  }

  lemma {:induction false} PaysOnce(w: Setting, s: Tables, ops: seq<(Op, int)>, k: nat)
    requires k in s.corpses && s.corpses[k].coinLooted
    requires forall op :: op in ops && op.0.AttackOp? ==> op.0.luck.corpse != k
    ensures var t := Ran(w, s, ops); k !in t.corpses || t.corpses[k].coinLooted
  {
    hide Stepped;
    if ops != [] {
      var n := |ops| - 1;
      assert ops[n] in ops;
      PaysOnce(w, s, ops[..n], k);
      PaidStays(w, Ran(w, s, ops[..n]), ops[n].0, ops[n].1, k);
    }
  }

  // Items on corpses come from killing blows.
  lemma AttackDrops(w: Setting, s: Tables, c: nat, r: nat, named: set<nat>, luck: Luck, now: int, i: nat)
    requires LuckOk(luck, s.corpses) && Attack(w, s, c, r, named, luck, now).Some?
    ensures var u := Attack(w, s, c, r, named, luck, now).value;
            Stock(u, i) == Stock(s, i) +
              if luck.corpse !in u.corpses then 0
              else (if u.corpses[luck.corpse].item == Some(i) then 1 else 0) - Rotten(s, now, i)
  {
    AttackTables(w, s, c, r, named, luck, now);
    hide Attack, InPacks, OnGround, Expired, HasCorpse;
    var u := Attack(w, s, c, r, named, luck, now).value;
    if luck.corpse in u.corpses {
      CorpsesExpire(s.corpses, now, i);
      CorpseAdded(Unexpired(s.corpses, now), luck.corpse, u.corpses[luck.corpse], i);
    }
  }

  lemma CorpseAdded(corpses: map<nat, Corpse>, k: nat, b: Corpse, i: nat)
    requires k !in corpses && (b.item.None? ==> b.itemLooted) && (b.item.Some? ==> !b.itemLooted)
    ensures Sum(OnCorpses(corpses[k := b], i)) == Sum(OnCorpses(corpses, i)) + if b.item == Some(i) then 1 else 0
  {
    if b.item == Some(i) {
      assert OnCorpses(corpses[k := b], i) == OnCorpses(corpses, i)[k := 1];
      SumPut(OnCorpses(corpses, i), k, 1);
    } else {
      assert OnCorpses(corpses[k := b], i) == OnCorpses(corpses, i);
    }
  }
}
