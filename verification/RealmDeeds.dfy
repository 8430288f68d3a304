// Experience and lives: every killing blow is paid for once, and every life of a monster
// ends in at most one.
module RealmDeeds {
  import opened Wrappers
  import opened WorldPlan
  import opened Realm
  import opened RealmSafety
  import opened RealmCoin

  // The monster a killing blow brought down.
  ghost function Victim(w: Setting, s: Tables, op: Op, now: int): nat
    requires Kills(w, s, op, now)
  {
    Performed(w, s, op, now).value.corpses[op.luck.corpse].npc
  }

  // Experience an operation grants a character.
  ghost function Earned(w: Setting, s: Tables, op: Op, now: int, c: nat): int {
    if Kills(w, s, op, now) && op.c == c && Victim(w, s, op, now) in s.npcs
    then s.npcs[Victim(w, s, op, now)].experience else 0
  }

  // What an attack does to everyone's experience and to the monsters it finds in `npcs`: a
  // killing blow brings its victim to zero until the respawn time, nobody else is touched.
  ghost predicate BlowDone(s: Tables, npcs: map<nat, Npc>, u: Tables, c: nat, luck: Luck, now: int) {
    && c in s.chars && c in u.chars && u.chars.Keys == s.chars.Keys && u.npcs.Keys == npcs.Keys
    && (forall d :: d in s.chars && d != c ==> u.chars[d] == s.chars[d])
    && (if luck.corpse in u.corpses then
          var t := u.corpses[luck.corpse].npc;
          && t in npcs && npcs[t].health > 0
          && u.npcs == npcs[t := npcs[t].(health := 0, respawnAt := Some(now + npcs[t].respawn * SECOND))]
          && u.chars[c].experience == s.chars[c].experience + npcs[t].experience
        else
          && u.chars[c].experience == s.chars[c].experience
          && forall n :: n in npcs ==> (u.npcs[n].health > 0 <==> npcs[n].health > 0)
                                       && (npcs[n].health <= 0 ==> u.npcs[n] == npcs[n]))
  }

  lemma SlayDone(s: Tables, c: nat, r: nat, t: nat, luck: Luck, now: int)
    requires c in s.chars && t in s.npcs && s.npcs[t].health > 0
    ensures var u := Slay(s, c, r, t, luck, now);
            u.Some? ==> BlowDone(s, s.npcs, u.value, c, luck, now)
  {
    hide HasCorpse, Unexpired, Coins;
  }

  lemma SufferDone(w: Setting, s: Tables, c: nat, r: nat, t: nat, left: int, hit: int, luck: Luck, now: int)
    requires c in s.chars && t in s.npcs && luck.corpse !in s.corpses && s.npcs[t].health > 0 && left > 0
    ensures var u := Suffer(w, s, c, r, t, left, hit, now);
            u.Some? ==> BlowDone(s, s.npcs, u.value, c, luck, now)
  {
    var u := Suffer(w, s, c, r, t, left, hit, now);
    if u.Some? {
      assert u.value.npcs == s.npcs[t := s.npcs[t].(health := left, respawnAt := None)];
      assert u.value.corpses == s.corpses && u.value.chars == s.chars[c := u.value.chars[c]];
      assert u.value.chars[c].experience == s.chars[c].experience;
      hide Suffer;
    }
  }

  lemma AttackDone(w: Setting, s: Tables, c: nat, r: nat, named: set<nat>, luck: Luck, now: int)
    requires LuckOk(luck, s.corpses) && Attack(w, s, c, r, named, luck, now).Some?
    ensures BlowDone(s, Respawned(s.npcs, r, now), Attack(w, s, c, r, named, luck, now).value, c, luck, now)
  {
    var npcs := Respawned(s.npcs, r, now);
    var u := s.(npcs := npcs);
    var t := Chosen(Living(npcs, r), named).value;
    var left := npcs[t].health - Min(npcs[t].health, Max(1, 5 + Best(w, s.pack, c, Weapon) - npcs[t].defense));
    var hit := Min(s.chars[c].health, Max(1, npcs[t].attack - Best(w, s.pack, c, Armor)));
    assert npcs[t].health > 0 && left >= 0 && luck.corpse !in s.corpses;
    assert Attack(w, s, c, r, named, luck, now) ==
           if left == 0 then Slay(u, c, r, t, luck, now) else Suffer(w, u, c, r, t, left, hit, now) by {
      hide Best, Slay, Suffer, Respawned, Living, Min, Max;
    }
    assert c in s.chars && t in npcs;
    hide *;
    if left == 0 {
      SlayDone(u, c, r, t, luck, now);
    } else {
      SufferDone(w, u, c, r, t, left, hit, luck, now);
    }
    SameBlow(u, s, npcs, Attack(w, s, c, r, named, luck, now).value, c, luck, now);
  }

  lemma SameBlow(s: Tables, t: Tables, npcs: map<nat, Npc>, u: Tables, c: nat, luck: Luck, now: int)
    requires BlowDone(s, npcs, u, c, luck, now) && t.chars == s.chars
    ensures BlowDone(t, npcs, u, c, luck, now)
  {
  }

  // ---------------------------------------------------------------- experience

  lemma LootEarns(w: Setting, s: Tables, op: Op, now: int, c: nat)
    requires op.LootOp? && c in s.chars
    ensures var t := Stepped(w, s, op, now); c in t.chars && t.chars[c].experience == s.chars[c].experience
  {
    hide Chosen, Stow, Carried, Unexpired;
  }

  // Every operation grants a character exactly what its own killing blow was worth.
  lemma OpEarns(w: Setting, s: Tables, op: Op, now: int, c: nat)
    requires c in s.chars
    ensures var t := Stepped(w, s, op, now);
            c in t.chars && t.chars[c].experience == s.chars[c].experience + Earned(w, s, op, now, c)
  {
    if op.AttackOp? {
      hide Attack, Respawned, LuckOk;
      if Performed(w, s, op, now).Some? {
        AttackDone(w, s, op.c, op.r, op.named, op.luck, now);
        SamePeople(s.npcs, op.r, now);
      }
    } else if op.LootOp? {
      hide Stepped;
      LootEarns(w, s, op, now, c);
    } else {
      hide Stepped;
      OthersEarn(w, s, op, now, c);
    }
  }

  lemma OthersEarn(w: Setting, s: Tables, op: Op, now: int, c: nat)
    requires !op.AttackOp? && !op.LootOp? && c in s.chars
    ensures var t := Stepped(w, s, op, now); c in t.chars && t.chars[c].experience == s.chars[c].experience
  {
    hide Chosen, Gather, Stow, Unstow, Lift, Lay, Carried, Wear, Respawned, Unexpired;
  }

  lemma SamePeople(npcs: map<nat, Npc>, r: nat, now: int)
    ensures var again := Respawned(npcs, r, now);
            again.Keys == npcs.Keys
            && forall n :: n in npcs ==> again[n].experience == npcs[n].experience && again[n].respawn == npcs[n].respawn
  {
  }

  ghost function TotalEarned(w: Setting, s: Tables, ops: seq<(Op, int)>, c: nat): int {
    if ops == [] then 0
    else
      var n := |ops| - 1;
      TotalEarned(w, s, ops[..n], c) + Earned(w, Ran(w, s, ops[..n]), ops[n].0, ops[n].1, c)
  }

  // The experience ledger: over any run, by any players in any order, a character's
  // experience is what it had, plus what its own killing blows were worth.
  lemma {:induction false} ExperienceLedger(w: Setting, s: Tables, ops: seq<(Op, int)>, c: nat)
    requires c in s.chars
    ensures var t := Ran(w, s, ops);
            c in t.chars && t.chars[c].experience == s.chars[c].experience + TotalEarned(w, s, ops, c)
  {
    hide Stepped, Earned;
    if ops != [] {
      var n := |ops| - 1;
      ExperienceLedger(w, s, ops[..n], c);
      OpEarns(w, Ran(w, s, ops[..n]), ops[n].0, ops[n].1, c);
    }
  }

  // ---------------------------------------------------------------- lives

  function Alive(npcs: map<nat, Npc>, n: nat): int {
    if n in npcs && npcs[n].health > 0 then 1 else 0
  }

  // Monster n falls in this operation.
  ghost function Falls(w: Setting, s: Tables, op: Op, now: int, n: nat): int {
    if Kills(w, s, op, now) && Victim(w, s, op, now) == n then 1 else 0
  }

  // Its next life begins in this operation: it was due, and the room is looked at or
  // fought in.
  ghost function Rises(w: Setting, s: Tables, op: Op, now: int, n: nat): int {
    if Performed(w, s, op, now).Some? && (op.AttackOp? || op.LookOp?) && n in s.npcs && Due(s.npcs[n], op.r, now) then 1 else 0
  }

  lemma RespawnRises(w: Setting, npcs: map<nat, Npc>, r: nat, now: int, n: nat)
    requires NpcsOk(w, npcs)
    ensures Alive(Respawned(npcs, r, now), n) == Alive(npcs, n) + if n in npcs && Due(npcs[n], r, now) then 1 else 0
  {
    assert n in npcs ==> NpcOk(w, npcs[n]);
  }

  lemma BlowFalls(s: Tables, npcs: map<nat, Npc>, u: Tables, c: nat, luck: Luck, now: int, n: nat)
    requires BlowDone(s, npcs, u, c, luck, now)
    ensures Alive(u.npcs, n) == Alive(npcs, n) - if luck.corpse in u.corpses && u.corpses[luck.corpse].npc == n then 1 else 0
  {
  }

  lemma OthersStand(w: Setting, s: Tables, op: Op, now: int)
    requires !op.AttackOp? && !op.LookOp?
    ensures Stepped(w, s, op, now).npcs == s.npcs
  {
    hide Chosen, Gather, Stow, Unstow, Lift, Lay, Carried, Wear, Unexpired;
  }

  // Every operation balances a monster's lives.
  lemma OpLives(w: Setting, s: Tables, op: Op, now: int, n: nat)
    requires Stocked(w, s)
    ensures Alive(Stepped(w, s, op, now).npcs, n) ==
            Alive(s.npcs, n) + Rises(w, s, op, now, n) - Falls(w, s, op, now, n)
  {
    hide Alive, BlowDone, Attack, Respawned, Due, LuckOk, PackOk, WornOk, GroundOk, CorpsesOk, NpcsOk;
    if op.AttackOp? {
      if Performed(w, s, op, now).Some? {
        AttackDone(w, s, op.c, op.r, op.named, op.luck, now);
        RespawnRises(w, s.npcs, op.r, now, n);
        BlowFalls(s, Respawned(s.npcs, op.r, now), Performed(w, s, op, now).value, op.c, op.luck, now, n);
      }
    } else if op.LookOp? {
      RespawnRises(w, s.npcs, op.r, now, n);
    } else {
      OthersStand(w, s, op, now);
    }
  }

  ghost function TotalFalls(w: Setting, s: Tables, ops: seq<(Op, int)>, n: nat): int {
    if ops == [] then 0
    else
      var k := |ops| - 1;
      TotalFalls(w, s, ops[..k], n) + Falls(w, Ran(w, s, ops[..k]), ops[k].0, ops[k].1, n)
  }

  ghost function TotalRises(w: Setting, s: Tables, ops: seq<(Op, int)>, n: nat): int {
    if ops == [] then 0
    else
      var k := |ops| - 1;
      TotalRises(w, s, ops[..k], n) + Rises(w, Ran(w, s, ops[..k]), ops[k].0, ops[k].1, n)
  }

  // At most one killing blow per life: over any run the killing blows a monster has taken
  // are the lives it has begun, the first included, but for the one it is living.
  lemma {:induction false} OneFallPerLife(w: Setting, s: Tables, ops: seq<(Op, int)>, n: nat)
    requires Stocked(w, s)
    ensures TotalFalls(w, s, ops, n) == Alive(s.npcs, n) + TotalRises(w, s, ops, n) - Alive(Ran(w, s, ops).npcs, n)
  {
    hide Stepped, Stocked, Falls, Rises, Alive;
    if ops != [] {
      var k := |ops| - 1;
      OneFallPerLife(w, s, ops[..k], n);
      RunStocked(w, s, ops[..k]);
      OpLives(w, Ran(w, s, ops[..k]), ops[k].0, ops[k].1, n);
    }
  }

  ghost predicate DownUntil(npcs: map<nat, Npc>, n: nat, due: int) {
    n in npcs && npcs[n].health == 0 && npcs[n].respawnAt == Some(due)
  }

  lemma OpWaits(w: Setting, s: Tables, op: Op, now: int, n: nat, due: int)
    requires DownUntil(s.npcs, n, due) && now < due
    ensures DownUntil(Stepped(w, s, op, now).npcs, n, due) && Falls(w, s, op, now, n) == 0
  {
    hide Attack, LuckOk, Respawned;
    NotRisen(s.npcs, n, due, now);
    if op.AttackOp? {
      if Performed(w, s, op, now).Some? {
        AttackDone(w, s, op.c, op.r, op.named, op.luck, now);
      }
    } else if !op.LookOp? {
      OthersStand(w, s, op, now);
    }
  }

  lemma NotRisen(npcs: map<nat, Npc>, n: nat, due: int, now: int)
    requires DownUntil(npcs, n, due) && now < due
    ensures forall r :: n in Respawned(npcs, r, now) && Respawned(npcs, r, now)[n] == npcs[n]
  {
  }

  lemma {:induction false} RunWaits(w: Setting, s: Tables, ops: seq<(Op, int)>, n: nat, due: int)
    requires DownUntil(s.npcs, n, due) && forall op :: op in ops ==> op.1 < due
    ensures DownUntil(Ran(w, s, ops).npcs, n, due) && TotalFalls(w, s, ops, n) == 0
  {
    hide Stepped, Falls, DownUntil;
    if ops != [] {
      var k := |ops| - 1;
      assert ops[k] in ops;
      RunWaits(w, s, ops[..k], n, due);
      OpWaits(w, Ran(w, s, ops[..k]), ops[k].0, ops[k].1, n, due);
    }
  }

  // A monster that falls takes no further killing blow before its respawn time, whatever
  // everybody does until then.
  lemma FallsApart(w: Setting, s: Tables, op: Op, now: int, ops: seq<(Op, int)>, n: nat)
    requires Falls(w, s, op, now, n) == 1
    ensures n in s.npcs
    ensures var u := Stepped(w, s, op, now);
            var due := now + s.npcs[n].respawn * SECOND;
            DownUntil(u.npcs, n, due)
            && ((forall later :: later in ops ==> later.1 < due) ==>
                  DownUntil(Ran(w, u, ops).npcs, n, due) && TotalFalls(w, u, ops, n) == 0)
  {
    FallenDown(w, s, op, now, n);
    hide Falls, Stepped, DownUntil, Ran, TotalFalls;
    if forall later :: later in ops ==> later.1 < now + s.npcs[n].respawn * SECOND {
      RunWaits(w, Stepped(w, s, op, now), ops, n, now + s.npcs[n].respawn * SECOND);
    }
  }

  lemma FallenDown(w: Setting, s: Tables, op: Op, now: int, n: nat)
    requires Falls(w, s, op, now, n) == 1
    ensures n in s.npcs && DownUntil(Stepped(w, s, op, now).npcs, n, now + s.npcs[n].respawn * SECOND)
  {
    hide Attack, LuckOk, Respawned;
    AttackDone(w, s, op.c, op.r, op.named, op.luck, now);
    SamePeople(s.npcs, op.r, now);
  }
}
