// Where items go: each operation accounts for every copy of every item.
module RealmStock {
  import opened Wrappers
  import opened Tally
  import opened WorldPlan
  import opened Realm
  import opened RealmSafety

  function InPacks(pack: Pack, i: nat): map<(nat, nat), int> {
    map k | k in pack && k.1 == i :: pack[k].quantity
  }

  function OnGround(ground: Ground, i: nat): map<(nat, nat), int> {
    map k | k in ground && k.1 == i :: ground[k]
  }

  function OnCorpses(corpses: map<nat, Corpse>, i: nat): map<nat, int> {
    map k | k in corpses && corpses[k].item == Some(i) && !corpses[k].itemLooted :: 1
  }

  // Every copy of an item: in packs, on the ground and on corpses not yet looted.
  ghost function Stock(s: Tables, i: nat): int {
    Sum(InPacks(s.pack, i)) + Sum(OnGround(s.ground, i)) + Sum(OnCorpses(s.corpses, i))
  }

  lemma PacksStow(pack: Pack, c: nat, j: nat, n: int, i: nat)
    ensures Sum(InPacks(Stow(pack, c, j, n), i)) == Sum(InPacks(pack, i)) + if i == j then n else 0
  {
    var q := (if (c, j) in pack then pack[(c, j)].quantity else 0) + n;
    if i == j {
      assert InPacks(Stow(pack, c, j, n), i) == InPacks(pack, i)[(c, j) := q];
      SumPut(InPacks(pack, i), (c, j), q);
    } else {
      assert InPacks(Stow(pack, c, j, n), i) == InPacks(pack, i);
    }
  }

  lemma PacksUnstow(pack: Pack, c: nat, j: nat, i: nat)
    requires (c, j) in pack && pack[(c, j)].quantity >= 1
    ensures Sum(InPacks(Unstow(pack, c, j), i)) == Sum(InPacks(pack, i)) - if i == j then 1 else 0
  {
    var q := pack[(c, j)].quantity;
    if i != j {
      assert InPacks(Unstow(pack, c, j), i) == InPacks(pack, i);
    } else if q == 1 {
      assert InPacks(Unstow(pack, c, j), i) == InPacks(pack, i) - {(c, j)};
      SumDrop(InPacks(pack, i), (c, j));
    } else {
      assert InPacks(Unstow(pack, c, j), i) == InPacks(pack, i)[(c, j) := q - 1];
      SumPut(InPacks(pack, i), (c, j), q - 1);
    }
  }

  lemma GroundLift(ground: Ground, r: nat, j: nat, n: int, i: nat)
    requires (r, j) in ground && 1 <= n <= ground[(r, j)]
    ensures Sum(OnGround(Lift(ground, r, j, n), i)) == Sum(OnGround(ground, i)) - if i == j then n else 0
  {
    var q := ground[(r, j)];
    if i != j {
      assert OnGround(Lift(ground, r, j, n), i) == OnGround(ground, i);
    } else if q == n {
      assert OnGround(Lift(ground, r, j, n), i) == OnGround(ground, i) - {(r, j)};
      SumDrop(OnGround(ground, i), (r, j));
    } else {
      assert OnGround(Lift(ground, r, j, n), i) == OnGround(ground, i)[(r, j) := q - n];
      SumPut(OnGround(ground, i), (r, j), q - n);
    }
  }

  lemma GroundPut(ground: Ground, r: nat, j: nat, n: int, i: nat)
    ensures Sum(OnGround(ground[(r, j) := n], i)) ==
            Sum(OnGround(ground, i)) + if i == j then n - (if (r, j) in ground then ground[(r, j)] else 0) else 0
  {
    if i == j {
      assert OnGround(ground[(r, j) := n], i) == OnGround(ground, i)[(r, j) := n];
      SumPut(OnGround(ground, i), (r, j), n);
    } else {
      assert OnGround(ground[(r, j) := n], i) == OnGround(ground, i);
    }
  }

  // ---------------------------------------------------------------- taking everything

  lemma {:induction false} GatherMoves(w: Setting, s: Tables, c: nat, r: nat, order: seq<nat>, i: nat)
    requires PackOk(w, s.pack) && WornOk(w, s.pack) && GroundOk(w, s.ground)
    ensures Stock(Gather(w, s, c, r, order), i) == Stock(s, i)
  {
    hide PackOk, WornOk, Grab, Stow, Lift, InPacks, OnGround, OnCorpses;
    if order != [] {
      var before := order[..|order| - 1];
      GatherMoves(w, s, c, r, before, i);
      GatherOk(w, s, c, r, before);
      var t := Gather(w, s, c, r, before);
      var j := order[|order| - 1];
      if j in w.items && (r, j) in t.ground && Grab(w, t.pack, t.ground, c, r, j) != 0 {
        var n := Grab(w, t.pack, t.ground, c, r, j);
        GrabFits(w, t.pack, t.ground, c, r, j);
        PacksStow(t.pack, c, j, n, i);
        GroundLift(t.ground, r, j, n, i);
      }
    }
  }

  // Why an item is still on the ground: the pack is full, or it is a quest item held.
  ghost predicate LeftFor(w: Setting, t: Tables, c: nat, i: nat) {
    Carried(t.pack, c) >= CAPACITY || (i in w.items && w.items[i].quest && (c, i) in t.pack)
  }

  // What gathering some stacks has done: every one of them still there is left for a
  // reason, packs only grow, and other stacks are untouched.
  ghost predicate Gathered(w: Setting, s: Tables, t: Tables, c: nat, r: nat, done: set<nat>) {
    && (forall i :: i in done && (r, i) in t.ground ==> LeftFor(w, t, c, i))
    && (forall k :: k in s.pack ==> k in t.pack) && Carried(s.pack, c) <= Carried(t.pack, c)
    && (forall k :: k in t.ground ==> k in s.ground)
    && (forall k :: k in s.ground && (k.0 != r || k.1 !in done) ==> k in t.ground && t.ground[k] == s.ground[k])
  }

  lemma GatheredNext(w: Setting, s: Tables, t: Tables, u: Tables, c: nat, r: nat, done: set<nat>, i: nat)
    requires Gathered(w, s, t, c, r, done) && Gathered(w, t, u, c, r, {i}) && i !in done
    ensures Gathered(w, s, u, c, r, done + {i})
  {
    hide Carried;
    forall j | j in done + {i} && (r, j) in u.ground
      ensures LeftFor(w, u, c, j)
    {
      if j != i {
        assert LeftFor(w, t, c, j);
      }
    }
  }

  lemma StackGathered(w: Setting, t: Tables, c: nat, r: nat, i: nat)
    requires PackOk(w, t.pack) && WornOk(w, t.pack) && GroundOk(w, t.ground)
    ensures Gathered(w, t, GrabStack(w, t, c, r, i), c, r, {i})
  {
    hide PackOk, WornOk;
    if i in w.items && (r, i) in t.ground && Grab(w, t.pack, t.ground, c, r, i) != 0 {
      CarriedStow(t.pack, c, i, Grab(w, t.pack, t.ground, c, r, i), c);
    }
    hide Carried;
  }

  lemma NothingGathered(w: Setting, s: Tables, c: nat, r: nat)
    ensures Gathered(w, s, s, c, r, Elements([]))
  {
  }

  lemma {:induction false} GatherLeaves(w: Setting, s: Tables, c: nat, r: nat, order: seq<nat>)
    requires PackOk(w, s.pack) && WornOk(w, s.pack) && GroundOk(w, s.ground)
    requires Distinct(order)
    ensures Gathered(w, s, Gather(w, s, c, r, order), c, r, Elements(order))
  {
    hide PackOk, WornOk, GroundOk, GrabStack, Gathered, Elements, Distinct;
    if order == [] {
      NothingGathered(w, s, c, r);
    } else {
      var n := |order| - 1;
      var i := order[n];
      DoneNext(order);
      GatherLeaves(w, s, c, r, order[..n]);
      GatherOk(w, s, c, r, order[..n]);
      var t, u := Gather(w, s, c, r, order[..n]), Gather(w, s, c, r, order);
      StackGathered(w, t, c, r, i);
      GatheredNext(w, s, t, u, c, r, Elements(order[..n]), i);
    }
  }

  lemma DoneNext(order: seq<nat>)
    requires order != [] && Distinct(order)
    ensures var n := |order| - 1;
            && Elements(order) == Elements(order[..n]) + {order[n]} && order[n] !in Elements(order[..n])
            && Distinct(order[..n])
  {
    var n := |order| - 1;
    assert order == order[..n] + [order[n]];
    assert forall j :: 0 <= j < n ==> order[j] != order[n];
  }

  // After take-all, whatever is left in the room is left because the pack is full or
  // because that quest item is held; other rooms and every total are as they were.
  lemma TakeAllLeaves(w: Setting, s: Tables, c: nat, r: nat, order: seq<nat>)
    requires Stocked(w, s) && TakeAll(w, s, c, r, order).Some?
    ensures var t := TakeAll(w, s, c, r, order).value;
            && (forall i :: i in w.items && (r, i) in t.ground ==>
                  Carried(t.pack, c) == CAPACITY || (w.items[i].quest && (c, i) in t.pack))
            && (forall k :: k in s.ground && k.0 != r ==> k in t.ground && t.ground[k] == s.ground[k])
            && (forall i :: Stock(t, i) == Stock(s, i))
  {
    hide Stock, WornOk, CharsOk, NpcsOk, CorpsesOk, Carried;
    GatherLeaves(w, s, c, r, order);
    GatherOk(w, s, c, r, order);
    forall i: nat
      ensures Stock(Gather(w, s, c, r, order), i) == Stock(s, i)
    {
      GatherMoves(w, s, c, r, order, i);
    }
    var t := Gather(w, s, c, r, order);
    forall i | i in w.items && (r, i) in t.ground
      ensures LeftFor(w, t, c, i) && Carried(t.pack, c) <= CAPACITY
    {
      assert (r, i) in s.ground && i in Lying(w, s.ground, r);
      assert i in order;
    }
  }

  // ---------------------------------------------------------------- conservation

  // Copies on corpses that have expired by `now`.
  ghost function Rotten(s: Tables, now: int, i: nat): int {
    Sum(Expired(s.corpses, now, i))
  }

  function Expired(corpses: map<nat, Corpse>, now: int, i: nat): map<nat, int> {
    map k | k in corpses && corpses[k].item == Some(i) && !corpses[k].itemLooted && corpses[k].expires <= now :: 1
  }

  lemma CorpsesExpire(corpses: map<nat, Corpse>, now: int, i: nat)
    ensures Sum(OnCorpses(Unexpired(corpses, now), i)) == Sum(OnCorpses(corpses, i)) - Sum(Expired(corpses, now, i))
  {
    var all := OnCorpses(corpses, i);
    var stale := set k | k in corpses && corpses[k].expires <= now;
    SumSplit(all, stale);
    assert all - stale == OnCorpses(Unexpired(corpses, now), i);
    assert (map k | k in all && k in stale :: all[k]) == Expired(corpses, now, i);
  }

  lemma TakeMoves(w: Setting, s: Tables, c: nat, r: nat, named: set<nat>, i: nat)
    requires Stocked(w, s)
    ensures Take(w, s, c, r, named).Some? ==> Stock(Take(w, s, c, r, named).value, i) == Stock(s, i)
    ensures Drop(w, s, c, r, named).Some? ==> Stock(Drop(w, s, c, r, named).value, i) == Stock(s, i)
  {
    hide Chosen, Carried, Stow, Unstow, Lift, InPacks, OnGround, OnCorpses, WornOk, CharsOk, NpcsOk, CorpsesOk;
    if Take(w, s, c, r, named).Some? {
      var j := Chosen(Lying(w, s.ground, r), named).value;
      PacksStow(s.pack, c, j, 1, i);
      GroundLift(s.ground, r, j, 1, i);
    }
    if Drop(w, s, c, r, named).Some? {
      var j := Chosen(Owned(w, s.pack, c), named).value;
      assert RowOk(w, j, s.pack[(c, j)]);
      PacksUnstow(s.pack, c, j, i);
      GroundPut(s.ground, r, j, if (r, j) in s.ground then s.ground[(r, j)] + 1 else 1, i);
    }
  }

  lemma CorpsesEmptied(corpses: map<nat, Corpse>, k: nat, b: Corpse, i: nat)
    requires k in corpses && b.item == corpses[k].item && b.itemLooted == corpses[k].itemLooted
    ensures OnCorpses(corpses[k := b], i) == OnCorpses(corpses, i)
    ensures Sum(OnCorpses(corpses - {k}, i)) ==
            Sum(OnCorpses(corpses, i)) - if corpses[k].item == Some(i) && !corpses[k].itemLooted then 1 else 0
  {
    assert OnCorpses(corpses - {k}, i) == OnCorpses(corpses, i) - {k};
    SumDrop(OnCorpses(corpses, i), k);
  }

  lemma LootFromMoves(w: Setting, s: Tables, c: nat, k: nat, i: nat)
    requires Stocked(w, s) && c in s.chars && k in s.corpses && LootFrom(w, s, c, k).Some?
    ensures Stock(LootFrom(w, s, c, k).value, i) == Stock(s, i)
  {
    hide Stow, Carried, InPacks, OnGround, OnCorpses, PackOk, WornOk, GroundOk, NpcsOk, CharsOk;
    var b := s.corpses[k];
    assert CorpseOk(w, b);
    CorpsesEmptied(s.corpses, k, b.(coinLooted := true), i);
    if b.item.Some? && !b.itemLooted && Carried(s.pack, c) < CAPACITY {
      PacksStow(s.pack, c, b.item.value, 1, i);
    }
  }

  // Looting moves the item from the corpse to the pack, or leaves it where it is; only
  // corpses that had expired take theirs with them.
  lemma LootMoves(w: Setting, s: Tables, c: nat, r: nat, named: set<nat>, now: int, i: nat)
    requires Stocked(w, s) && Loot(w, s, c, r, named, now).Some?
    ensures Stock(Loot(w, s, c, r, named, now).value, i) == Stock(s, i) - Rotten(s, now, i)
  {
    hide Chosen, LootFrom, InPacks, OnGround, PackOk, WornOk, GroundOk, NpcsOk, CharsOk, CorpsesOk;
    UnexpiredOk(w, s.corpses, now);
    var u := s.(corpses := Unexpired(s.corpses, now));
    CorpsesExpire(s.corpses, now, i);
    LootFromMoves(w, u, c, Chosen(Lootable(u.corpses, r), named).value, i);
  }

  predicate Moves(op: Op) {
    op.TakeOp? || op.TakeAllOp? || op.DropOp? || op.EquipOp? || op.UnequipOp? || op.ResurrectOp? || op.RestOp?
    || op.AwardOp? || op.MoveOp? || op.LookOp?
  }

  predicate Loots(op: Op) {
    op.LootOp? || op.SearchOp?
  }

  // Taking, dropping, wearing and everything that does not touch items keep every total.
  lemma OpMoves(w: Setting, s: Tables, op: Op, now: int, i: nat)
    requires Stocked(w, s) && Moves(op)
    ensures Stock(Stepped(w, s, op, now), i) == Stock(s, i)
  {
    hide Stock, Stocked, Take, TakeAll, Drop, Use, Equip, Unequip, Attack, Loot, Resurrect, Give, Rest, Award, Move, Respawned, Unexpired;
    match op
    case TakeOp(c, r, named) => TakeMoves(w, s, c, r, named, i);
    case DropOp(c, r, named) => TakeMoves(w, s, c, r, named, i);
    case TakeAllOp(c, r, order) =>
      if TakeAll(w, s, c, r, order).Some? {
        TakeAllLeaves(w, s, c, r, order);
      }
    case EquipOp(c, named) => WornMoves(w, s, c, named, i);
    case UnequipOp(c, named) => WornMoves(w, s, c, named, i);
    case ResurrectOp(_, _, _, _) => PersonRows(w, s, op, now, i);
    case RestOp(_, _) => PersonRows(w, s, op, now, i);
    case AwardOp(_, _, _) => PersonRows(w, s, op, now, i);
    case MoveOp(_, _) => PersonRows(w, s, op, now, i);
    case LookOp(_) => SameRows(s, Stepped(w, s, op, now), i);
  }

  lemma PersonRows(w: Setting, s: Tables, op: Op, now: int, i: nat)
    requires op.ResurrectOp? || op.RestOp? || op.AwardOp? || op.MoveOp?
    ensures Stock(Stepped(w, s, op, now), i) == Stock(s, i)
  {
    SameRows(s, Stepped(w, s, op, now), i);
  }

  lemma SameRows(s: Tables, t: Tables, i: nat)
    requires t.pack == s.pack && t.ground == s.ground && t.corpses == s.corpses
    ensures Stock(t, i) == Stock(s, i)
  {
  }

  lemma PacksWear(w: Setting, pack: Pack, c: nat, j: nat, i: nat)
    requires (c, j) in pack && j in w.items
    ensures InPacks(Wear(w, pack, c, j), i) == InPacks(pack, i)
    ensures InPacks(pack[(c, j) := pack[(c, j)].(equipped := false)], i) == InPacks(pack, i)
  {
  }

  lemma WornMoves(w: Setting, s: Tables, c: nat, named: set<nat>, i: nat)
    ensures Equip(w, s, c, named).Some? ==> Stock(Equip(w, s, c, named).value, i) == Stock(s, i)
    ensures Unequip(w, s, c, named).Some? ==> Stock(Unequip(w, s, c, named).value, i) == Stock(s, i)
  {
    hide Chosen, Wear, InPacks, OnGround, OnCorpses;
    var chosen := Chosen(Owned(w, s.pack, c), named);
    if chosen.Some? {
      PacksWear(w, s.pack, c, chosen.value, i);
    }
  }

  // Dropping what was just taken puts everything back as it was.
  lemma DropUndoesTake(w: Setting, s: Tables, c: nat, r: nat, named: set<nat>, again: set<nat>)
    requires Stocked(w, s) && Take(w, s, c, r, named).Some?
    requires var t := Take(w, s, c, r, named).value;
             Drop(w, t, c, r, again).Some? && Chosen(Owned(w, t.pack, c), again) == Chosen(Lying(w, s.ground, r), named)
    ensures Drop(w, Take(w, s, c, r, named).value, c, r, again).value == s
  {
    hide Chosen, Carried, WornOk, CharsOk, NpcsOk, CorpsesOk;
    var i := Chosen(Lying(w, s.ground, r), named).value;
    var t := Take(w, s, c, r, named).value;
    assert (c, i) in s.pack ==> RowOk(w, i, s.pack[(c, i)]);
    assert Unstow(t.pack, c, i) == s.pack;
    assert Lay(t.ground, r, i) == s.ground;
  }

  lemma WearsOnly(w: Setting, pack: Pack, c: nat, i: nat)
    requires (c, i) in pack && i in w.items
    ensures var q := Wear(w, pack, c, i);
            && q.Keys == pack.Keys
            && (forall k :: k in q && k.0 == c && k.1 in w.items && w.items[k.1].kind == w.items[i].kind ==>
                  (q[k].equipped <==> k.1 == i))
            && (forall k :: k in pack && (k.0 != c || (k.1 in w.items && w.items[k.1].kind != w.items[i].kind)) ==>
                  q[k] == pack[k])
  {
  }

  // After equipping, of the equipment of that kind the player wears this and no other;
  // nobody else's pack changes.
  lemma EquipWears(w: Setting, s: Tables, c: nat, named: set<nat>)
    requires Stocked(w, s) && Equip(w, s, c, named).Some?
    ensures var i := Chosen(Owned(w, s.pack, c), named).value;
            var t := Equip(w, s, c, named).value;
            && (forall k :: k in t.pack && k.0 == c && k.1 in w.items && w.items[k.1].kind == w.items[i].kind ==>
                  (t.pack[k].equipped <==> k.1 == i))
            && t.pack.Keys == s.pack.Keys
            && (forall k :: k in s.pack && (k.0 != c || (k.1 in w.items && w.items[k.1].kind != w.items[i].kind)) ==>
                  t.pack[k] == s.pack[k])
  {
    hide Chosen, Carried, PackOk, NpcsOk, CorpsesOk, GroundOk;
    var i := Chosen(Owned(w, s.pack, c), named).value;
    if !s.pack[(c, i)].equipped {
      WearsOnly(w, s.pack, c, i);
    }
  }

  // Copies that expired corpses took with them, over a run.
  ghost function Lost(w: Setting, s: Tables, ops: seq<(Op, int)>, i: nat): int {
    if ops == [] then 0
    else
      var n := |ops| - 1;
      var t := Ran(w, s, ops[..n]);
      Lost(w, s, ops[..n], i) +
      if Loots(ops[n].0) && Performed(w, t, ops[n].0, ops[n].1).Some? then Rotten(t, ops[n].1, i) else 0
  }

  // Over any run of taking, dropping, wearing and looting, by any players in any order,
  // every item is conserved but for what expired corpses held.
  lemma {:induction false} ItemsConserved(w: Setting, s: Tables, ops: seq<(Op, int)>, i: nat)
    requires Stocked(w, s) && forall op :: op in ops ==> Moves(op.0) || Loots(op.0)
    ensures Stock(Ran(w, s, ops), i) == Stock(s, i) - Lost(w, s, ops, i)
  {
    hide Stocked, Stock, Rotten;
    if ops != [] {
      var n := |ops| - 1;
      var t := Ran(w, s, ops[..n]);
      var (op, now) := ops[n];
      assert ops[n] in ops;
      ItemsConserved(w, s, ops[..n], i);
      RunStocked(w, s, ops[..n]);
      if Moves(op) {
        hide Stepped;
        OpMoves(w, t, op, now, i);
      } else {
        LootsMove(w, t, op, now, i);
      }
    }
  }

  lemma SearchLoses(s: Tables, now: int, i: nat)
    ensures Stock(s.(corpses := Unexpired(s.corpses, now)), i) == Stock(s, i) - Rotten(s, now, i)
  {
    CorpsesExpire(s.corpses, now, i);
  }

  lemma LootsMove(w: Setting, s: Tables, op: Op, now: int, i: nat)
    requires Stocked(w, s) && Loots(op)
    ensures Stock(Stepped(w, s, op, now), i) == Stock(s, i) - if Performed(w, s, op, now).Some? then Rotten(s, now, i) else 0
  {
    hide Loot, InPacks, OnGround, Rotten, Stock;
    if op.SearchOp? {
      SearchLoses(s, now, i);
    } else if Performed(w, s, op, now).Some? {
      LootMoves(w, s, op.c, op.r, op.named, now, i);
    }
  }

  // The other operations make or spend copies: a potion is drunk, a killing blow may
  // leave its item on the corpse, a delivery puts exactly one manifest at the docks.
  lemma UseSpends(w: Setting, s: Tables, c: nat, named: set<nat>, i: nat)
    requires Stocked(w, s) && Use(w, s, c, named).Some?
    ensures Stock(Use(w, s, c, named).value, i) ==
            Stock(s, i) - if Chosen(Owned(w, s.pack, c), named) == Some(i) then 1 else 0
  {
    hide Chosen, Unstow, InPacks, OnGround, OnCorpses, WornOk, CharsOk, NpcsOk, CorpsesOk, Carried;
    var j := Chosen(Owned(w, s.pack, c), named).value;
    assert RowOk(w, j, s.pack[(c, j)]);
    PacksUnstow(s.pack, c, j, i);
  }

  lemma DeliveryMoves(w: Setting, s: Tables, c: nat, r: nat, items: set<nat>, npcs: set<nat>, i: nat)
    requires Stocked(w, s) && Give(w, s, c, r, items, npcs).Some?
    ensures w.docks.Some?
    ensures var t := Give(w, s, c, r, items, npcs).value;
            var docks := (w.docks.value, w.manifest);
            && (c, w.manifest) in s.pack && (c, w.manifest) !in t.pack
            && docks in t.ground && t.ground[docks] == 1
            && Stock(t, i) == Stock(s, i) + if i != w.manifest then 0
                 else 1 - s.pack[(c, w.manifest)].quantity - if docks in s.ground then s.ground[docks] else 0
  {
    hide Chosen, Carried, OnGround, OnCorpses, WornOk, CharsOk, NpcsOk, CorpsesOk;
    var m := w.manifest;
    if i == m {
      assert InPacks(s.pack - {(c, m)}, i) == InPacks(s.pack, i) - {(c, m)};
      SumDrop(InPacks(s.pack, i), (c, m));
    } else {
      assert InPacks(s.pack - {(c, m)}, i) == InPacks(s.pack, i);
    }
    GroundPut(s.ground, w.docks.value, m, 1, i);
  }
}
