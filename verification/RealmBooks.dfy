// The stock ledger: every copy of every item, over runs of all operations.
module RealmBooks {
  import opened Wrappers
  import opened Tally
  import opened WorldPlan
  import opened Realm
  import opened RealmSafety
  import opened RealmStock
  import opened RealmCoin

  // Copies an operation brings into the world: what a killing blow leaves on its corpse,
  // and the manifest a delivery puts back at the docks.
  ghost function Gained(w: Setting, s: Tables, op: Op, now: int, i: nat): int {
    var t := Performed(w, s, op, now);
    if t.None? then 0
    else if Kills(w, s, op, now) then if t.value.corpses[op.luck.corpse].item == Some(i) then 1 else 0
    else if op.GiveOp? && i == w.manifest then 1
    else 0
  }

  // Copies it uses up: the potion drunk; the manifest handed over, and any that lay at the
  // docks before.
  ghost function Spent(w: Setting, s: Tables, op: Op, now: int, i: nat): int {
    if Performed(w, s, op, now).None? then 0
    else if op.UseOp? then if Chosen(Owned(w, s.pack, op.c), op.named) == Some(i) then 1 else 0
    else if op.GiveOp? && i == w.manifest then
      var at := if w.docks.Some? then (w.docks.value, i) else (0, i);
      (if (op.c, i) in s.pack then s.pack[(op.c, i)].quantity else 0) + if at in s.ground then s.ground[at] else 0
    else 0
  }

  // Copies that went with expired corpses.
  ghost function Rotted(w: Setting, s: Tables, op: Op, now: int, i: nat): int {
    if Performed(w, s, op, now).Some? && (Kills(w, s, op, now) || Loots(op)) then Rotten(s, now, i) else 0
  }

  lemma GiveStock(w: Setting, s: Tables, op: Op, now: int, i: nat)
    requires Stocked(w, s) && op.GiveOp? && Performed(w, s, op, now).Some?
    ensures Stock(Performed(w, s, op, now).value, i) == Stock(s, i) + Gained(w, s, op, now, i) - Spent(w, s, op, now, i)
  {
    hide Give, Stock, Stocked, Chosen;
    DeliveryMoves(w, s, op.c, op.r, op.items, op.npcs, i);
  }

  // Every operation accounts for every copy.
  lemma OpStock(w: Setting, s: Tables, op: Op, now: int, i: nat)
    requires Stocked(w, s)
    ensures Stock(Stepped(w, s, op, now), i) ==
            Stock(s, i) + Gained(w, s, op, now, i) - Spent(w, s, op, now, i) - Rotted(w, s, op, now, i)
  {
    hide Stock, Stocked, Take, TakeAll, Drop, Use, Equip, Unequip, Attack, Loot, Resurrect, Give, Rest, Award, Move, Respawned, Unexpired,
      Rotten, Chosen, LuckOk;
    if Moves(op) {
      OpMoves(w, s, op, now, i);
    } else if Loots(op) {
      LootsMove(w, s, op, now, i);
    } else if Performed(w, s, op, now).Some? {
      match op
      case UseOp(c, named) => UseSpends(w, s, c, named, i);
      case GiveOp(_, _, _, _) => GiveStock(w, s, op, now, i);
      case AttackOp(c, r, named, luck) => AttackDrops(w, s, c, r, named, luck, now, i);
    }
  }

  ghost function TotalGained(w: Setting, s: Tables, ops: seq<(Op, int)>, i: nat): int {
    if ops == [] then 0
    else
      var n := |ops| - 1;
      TotalGained(w, s, ops[..n], i) + Gained(w, Ran(w, s, ops[..n]), ops[n].0, ops[n].1, i)
  }

  ghost function TotalSpent(w: Setting, s: Tables, ops: seq<(Op, int)>, i: nat): int {
    if ops == [] then 0
    else
      var n := |ops| - 1;
      TotalSpent(w, s, ops[..n], i) + Spent(w, Ran(w, s, ops[..n]), ops[n].0, ops[n].1, i)
  }

  ghost function TotalRotted(w: Setting, s: Tables, ops: seq<(Op, int)>, i: nat): int {
    if ops == [] then 0
    else
      var n := |ops| - 1;
      TotalRotted(w, s, ops[..n], i) + Rotted(w, Ran(w, s, ops[..n]), ops[n].0, ops[n].1, i)
  }

  // The stock ledger over any run of all operations, by any players in any order: of every
  // item there is what there was, plus what killing blows and deliveries brought, minus
  // potions drunk, manifests handed over and what expired corpses held.
  lemma {:induction false} StockLedger(w: Setting, s: Tables, ops: seq<(Op, int)>, i: nat)
    requires Stocked(w, s)
    ensures Stock(Ran(w, s, ops), i) ==
            Stock(s, i) + TotalGained(w, s, ops, i) - TotalSpent(w, s, ops, i) - TotalRotted(w, s, ops, i)
  {
    hide Stocked, Stock, Stepped, Gained, Spent, Rotted;
    if ops != [] {
      var n := |ops| - 1;
      StockLedger(w, s, ops[..n], i);
      RunStocked(w, s, ops[..n]);
      OpStock(w, Ran(w, s, ops[..n]), ops[n].0, ops[n].1, i);
    }
  }
}
