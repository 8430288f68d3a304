// The tables of the shared world and what one game operation does to them
// (internal/game): each function gives the committed tables, or None when the
// operation fails and its transaction leaves everything as it was.
module Realm {
  import opened Wrappers
  import opened Tally
  import opened WorldPlan

  const CAPACITY := 50
  const MOVE_COST := 1
  const ATTACK_COST := 2
  const REWARD_GOLD := 15
  const COPPER_PER_SILVER := 100
  const COPPER_PER_GOLD := 10_000

  // Times are microseconds.
  const SECOND := 1_000_000
  const CORPSE_LIFE := 1800 * SECOND
  const RESURRECTION_DELAY := 600 * SECOND

  datatype Kind = Weapon | Armor | Plain

  // `healing` and `restores` are the optional properties a potion has.
  datatype Item = Item(kind: Kind, quest: bool, healing: Option<int>, restores: Option<int>, damage: int, defense: int)

  datatype PlaceKind = Normal | Dungeon | Safe | Shop | Inn

  datatype Place = Place(kind: PlaceKind, exits: map<Direction, nat>)

  // What no game operation changes. `hall` is the room installed as hall_returning,
  // `docks` the room named Moonlit Docks, `manifest` the Misplaced Manifest.
  datatype Setting = Setting(
    items: map<nat, Item>, rooms: map<nat, Place>, hall: Option<nat>, docks: Option<nat>, manifest: nat)

  datatype Character = Character(
    health: int, maxHealth: int, stamina: int, maxStamina: int, gold: int, experience: int,
    room: Option<nat>, dead: bool, died: Option<int>, ready: Option<int>, deathRoom: Option<nat>)

  datatype Held = Held(quantity: int, equipped: bool)

  datatype Npc = Npc(
    room: nat, health: int, maxHealth: int, hostile: bool, crier: bool, attack: int, defense: int,
    gold: int, experience: int, respawn: int, respawnAt: Option<int>, loot: Option<nat>, chance: int)

  datatype Corpse = Corpse(
    npc: nat, room: nat, owner: nat, coin: int, item: Option<nat>, coinLooted: bool, itemLooted: bool, expires: int)

  datatype Payment = Payment(from: nat, amount: int)

  type Pack = map<(nat, nat), Held>    // character and item
  type Ground = map<(nat, nat), int>   // room and item

  datatype Tables = Tables(
    chars: map<nat, Character>, pack: Pack, ground: Ground, npcs: map<nat, Npc>,
    corpses: map<nat, Corpse>, payments: seq<Payment>, deliveries: map<nat, nat>)

  // The random choices of a killing blow, and the ID of the corpse.
  datatype Luck = Luck(silver: nat, copper: nat, roll: nat, corpse: nat)

  function Min(a: int, b: int): int {
    if a < b then a else b
  }

  function Max(a: int, b: int): int {
    if a < b then b else a
  }

  // ---------------------------------------------------------------- names

  // The only one of the candidates that a typed name matches.
  predicate Only(candidates: set<nat>, named: set<nat>, i: nat) {
    i in candidates && i in named && forall j :: j in candidates && j in named ==> j == i
  }

  ghost function Chosen(candidates: set<nat>, named: set<nat>): (r: Option<nat>)
    ensures r.Some? ==> Only(candidates, named, r.value)
  {
    if i: nat :| Only(candidates, named, i) then Some(i) else None
  }

  // ---------------------------------------------------------------- packs and ground

  function PackOf(pack: Pack, c: nat): map<(nat, nat), int> {
    map k | k in pack && k.0 == c :: pack[k].quantity
  }

  ghost function Carried(pack: Pack, c: nat): int {
    Sum(PackOf(pack, c))
  }

  function Owned(w: Setting, pack: Pack, c: nat): set<nat> {
    set k | k in pack && k.0 == c && k.1 in w.items :: k.1
  }

  function Lying(w: Setting, ground: Ground, r: nat): set<nat> {
    set k | k in ground && k.0 == r && k.1 in w.items :: k.1
  }

  function Stow(pack: Pack, c: nat, i: nat, n: int): Pack {
    pack[(c, i) := if (c, i) in pack then pack[(c, i)].(quantity := pack[(c, i)].quantity + n) else Held(n, false)]
  }

  function Unstow(pack: Pack, c: nat, i: nat): Pack
    requires (c, i) in pack
  {
    if pack[(c, i)].quantity <= 1 then pack - {(c, i)}
    else pack[(c, i) := pack[(c, i)].(quantity := pack[(c, i)].quantity - 1)]
  }

  function Lay(ground: Ground, r: nat, i: nat): Ground {
    ground[(r, i) := if (r, i) in ground then ground[(r, i)] + 1 else 1]
  }

  function Lift(ground: Ground, r: nat, i: nat, n: int): Ground
    requires (r, i) in ground
  {
    if ground[(r, i)] - n <= 0 then ground - {(r, i)} else ground[(r, i) := ground[(r, i)] - n]
  }

  predicate InRoom(s: Tables, c: nat, r: nat) {
    c in s.chars && s.chars[c].room == Some(r)
  }

  ghost function Take(w: Setting, s: Tables, c: nat, r: nat, named: set<nat>): Option<Tables> {
    if !InRoom(s, c, r) then None
    else
      var chosen := Chosen(Lying(w, s.ground, r), named);
      if chosen.None? || Carried(s.pack, c) >= CAPACITY || (w.items[chosen.value].quest && (c, chosen.value) in s.pack) then None
      else Some(s.(ground := Lift(s.ground, r, chosen.value, 1), pack := Stow(s.pack, c, chosen.value, 1)))
  }

  // How many of a stack take-all moves.
  ghost function Grab(w: Setting, pack: Pack, ground: Ground, c: nat, r: nat, i: nat): int
    requires i in w.items && (r, i) in ground
  {
    var n := Min(ground[(r, i)], CAPACITY - Carried(pack, c));
    if n <= 0 || (w.items[i].quest && (c, i) in pack) then 0 else if w.items[i].quest then 1 else n
  }

  // The stacks on the ground in the order they are listed, each taken as far as it goes.
  ghost function Gather(w: Setting, s: Tables, c: nat, r: nat, order: seq<nat>): (t: Tables)
    ensures t == s.(pack := t.pack, ground := t.ground)
  {
    if order == [] then s
    else
      GrabStack(w, Gather(w, s, c, r, order[..|order| - 1]), c, r, order[|order| - 1])
  }

  ghost function GrabStack(w: Setting, t: Tables, c: nat, r: nat, i: nat): (u: Tables)
    ensures u == t.(pack := u.pack, ground := u.ground)
  {
    if i !in w.items || (r, i) !in t.ground then t
    else
      var n := Grab(w, t.pack, t.ground, c, r, i);
      if n == 0 then t else t.(ground := Lift(t.ground, r, i, n), pack := Stow(t.pack, c, i, n))
  }

  // `order` lists every item on the ground of the room, once.
  predicate Lists(order: seq<nat>, items: set<nat>) {
    Elements(order) == items && Distinct(order)
  }

  function Elements(order: seq<nat>): set<nat> {
    set i | i in order
  }

  predicate Distinct(order: seq<nat>) {
    forall j, k :: 0 <= j < k < |order| ==> order[j] != order[k]
  }

  ghost function TakeAll(w: Setting, s: Tables, c: nat, r: nat, order: seq<nat>): Option<Tables> {
    if !InRoom(s, c, r) || !Lists(order, Lying(w, s.ground, r)) then None else Some(Gather(w, s, c, r, order))
  }

  ghost function Drop(w: Setting, s: Tables, c: nat, r: nat, named: set<nat>): Option<Tables> {
    if !InRoom(s, c, r) then None
    else
      var chosen := Chosen(Owned(w, s.pack, c), named);
      if chosen.None? || s.pack[(c, chosen.value)].equipped then None
      else Some(s.(pack := Unstow(s.pack, c, chosen.value), ground := Lay(s.ground, r, chosen.value)))
  }

  // A potion heals or, failing that, restores stamina; the tables refuse negative vitals.
  ghost function Use(w: Setting, s: Tables, c: nat, named: set<nat>): Option<Tables> {
    var chosen := Chosen(Owned(w, s.pack, c), named);
    if chosen.None? || c !in s.chars then None
    else
      var item, who := w.items[chosen.value], s.chars[c];
      if item.healing.None? && item.restores.None? then None
      else
        var health := if item.healing.Some? then Min(who.health + item.healing.value, who.maxHealth) else who.health;
        var stamina := if item.healing.None? then Min(who.stamina + item.restores.value, who.maxStamina) else who.stamina;
        if health < 0 || stamina < 0 then None
        else Some(s.(pack := Unstow(s.pack, c, chosen.value), chars := s.chars[c := who.(health := health, stamina := stamina)]))
  }

  // Putting on a weapon or an armor takes off what was worn of its kind.
  function Wear(w: Setting, pack: Pack, c: nat, i: nat): Pack
    requires (c, i) in pack && i in w.items
  {
    map k | k in pack ::
      if k == (c, i) then pack[k].(equipped := true)
      else if k.0 == c && k.1 in w.items && w.items[k.1].kind == w.items[i].kind then pack[k].(equipped := false)
      else pack[k]
  }

  ghost function Equip(w: Setting, s: Tables, c: nat, named: set<nat>): Option<Tables> {
    var chosen := Chosen(Owned(w, s.pack, c), named);
    if chosen.None? || w.items[chosen.value].kind.Plain? then None
    else if s.pack[(c, chosen.value)].equipped then Some(s)
    else Some(s.(pack := Wear(w, s.pack, c, chosen.value)))
  }

  ghost function Unequip(w: Setting, s: Tables, c: nat, named: set<nat>): Option<Tables> {
    var chosen := Chosen(Owned(w, s.pack, c), named);
    if chosen.None? || !s.pack[(c, chosen.value)].equipped then None
    else Some(s.(pack := s.pack[(c, chosen.value) := s.pack[(c, chosen.value)].(equipped := false)]))
  }

  // ---------------------------------------------------------------- combat

  predicate Due(n: Npc, room: nat, now: int) {
    n.room == room && n.hostile && n.health <= 0 && n.respawnAt.Some? && n.respawnAt.value <= now
  }

  function Respawned(npcs: map<nat, Npc>, room: nat, now: int): map<nat, Npc> {
    map n | n in npcs :: if Due(npcs[n], room, now) then npcs[n].(health := npcs[n].maxHealth, respawnAt := None) else npcs[n]
  }

  function Living(npcs: map<nat, Npc>, room: nat): set<nat> {
    set n | n in npcs && npcs[n].room == room && npcs[n].health > 0
  }

  // What an equipped row is worth in combat.
  function Worth(w: Setting, pack: Pack, k: (nat, nat), kind: Kind): int
    requires k in pack
  {
    if !pack[k].equipped || pack[k].quantity <= 0 || k.1 !in w.items || w.items[k.1].kind != kind then 0
    else if kind.Weapon? then Min(100, Max(0, w.items[k.1].damage))
    else if kind.Armor? then Min(50, Max(0, w.items[k.1].defense))
    else 0
  }

  predicate IsBest(w: Setting, pack: Pack, c: nat, kind: Kind, v: int) {
    && (v == 0 || exists k :: k in pack && k.0 == c && Worth(w, pack, k, kind) == v)
    && v >= 0 && forall k :: k in pack && k.0 == c ==> Worth(w, pack, k, kind) <= v
  }

  ghost function Best(w: Setting, pack: Pack, c: nat, kind: Kind): (v: int)
    ensures IsBest(w, pack, c, kind, v)
  {
    BestExists(w, pack, c, kind);
    var v :| IsBest(w, pack, c, kind, v);
    v
  }

  lemma {:induction false} BestExists(w: Setting, pack: Pack, c: nat, kind: Kind)
    ensures exists v :: IsBest(w, pack, c, kind, v)
    decreases |pack.Keys|
  {
    if pack == map[] {
      assert IsBest(w, pack, c, kind, 0);
    } else {
      var j :| j in pack;
      var rest := pack - {j};
      assert rest.Keys == pack.Keys - {j};
      BestExists(w, rest, c, kind);
      var v :| IsBest(w, rest, c, kind, v);
      BestNext(w, pack, c, kind, j, v);
    }
  }

  lemma BestNext(w: Setting, pack: Pack, c: nat, kind: Kind, j: (nat, nat), v: int)
    requires j in pack && IsBest(w, pack - {j}, c, kind, v)
    ensures IsBest(w, pack, c, kind, if j.0 == c then Max(v, Worth(w, pack, j, kind)) else v)
  {
    var rest := pack - {j};
    assert forall k :: k in rest ==> k in pack && Worth(w, rest, k, kind) == Worth(w, pack, k, kind);
    assert forall k :: k in pack ==> k == j || k in rest;
    hide Worth;
    var u := if j.0 == c then Max(v, Worth(w, pack, j, kind)) else v;
    if u == v && v != 0 {
      var k :| k in rest && k.0 == c && Worth(w, rest, k, kind) == v;
      assert Worth(w, pack, k, kind) == v;
    }
  }

  function Unexpired(corpses: map<nat, Corpse>, now: int): map<nat, Corpse> {
    map k | k in corpses && corpses[k].expires > now :: corpses[k]
  }

  predicate Active(b: Corpse) {
    !(b.coinLooted && b.itemLooted)
  }

  // The unique index: an NPC with a corpse that is not fully looted.
  predicate HasCorpse(corpses: map<nat, Corpse>, npc: nat) {
    exists k :: k in corpses && corpses[k].npc == npc && Active(corpses[k])
  }

  function Coins(n: Npc, luck: Luck): int {
    n.gold * COPPER_PER_GOLD + luck.silver * COPPER_PER_SILVER + luck.copper
  }

  predicate LuckOk(luck: Luck, corpses: map<nat, Corpse>) {
    1 <= luck.silver <= 99 && 1 <= luck.copper <= 99 && luck.roll < 10_000 && luck.corpse !in corpses
  }

  // The blow that brings the NPC to zero: experience now, coin and perhaps an item on a
  // corpse. A second corpse of one NPC is refused, and with it the whole attack.
  function Slay(s: Tables, c: nat, r: nat, t: nat, luck: Luck, now: int): Option<Tables>
    requires c in s.chars && t in s.npcs
  {
    var corpses := Unexpired(s.corpses, now);
    if HasCorpse(corpses, t) || luck.corpse in corpses then None
    else
      var n, who := s.npcs[t], s.chars[c];
      var item := if n.loot.Some? && luck.roll < n.chance then n.loot else None;
      Some(s.(corpses := corpses[luck.corpse := Corpse(t, r, c, Coins(n, luck), item, false, item.None?, now + CORPSE_LIFE)],
              npcs := s.npcs[t := n.(health := 0, respawnAt := Some(now + n.respawn * SECOND))],
              chars := s.chars[c := who.(stamina := who.stamina - ATTACK_COST, experience := who.experience + n.experience)]))
  }

  // The NPC survives and hits back; a character brought to zero dies.
  function Suffer(w: Setting, s: Tables, c: nat, r: nat, t: nat, left: int, hit: int, now: int): Option<Tables>
    requires c in s.chars && t in s.npcs
  {
    var who := s.chars[c];
    var struck := who.(health := who.health - hit, stamina := who.stamina - ATTACK_COST);
    var npcs := s.npcs[t := s.npcs[t].(health := left, respawnAt := None)];
    if struck.health != 0 then Some(s.(npcs := npcs, chars := s.chars[c := struck]))
    else if w.hall.None? then None
    else
      var corpse := struck.(room := w.hall, dead := true, died := Some(now), ready := Some(now + RESURRECTION_DELAY),
                            deathRoom := Some(r));
      Some(s.(npcs := npcs, chars := s.chars[c := corpse]))
  }

  ghost function Attack(w: Setting, s: Tables, c: nat, r: nat, named: set<nat>, luck: Luck, now: int): Option<Tables> {
    if !InRoom(s, c, r) || s.chars[c].dead || s.chars[c].health <= 0 || s.chars[c].stamina < ATTACK_COST
       || r !in w.rooms || !(w.rooms[r].kind.Normal? || w.rooms[r].kind.Dungeon?) then None
    else
      var npcs := Respawned(s.npcs, r, now);
      var chosen := Chosen(Living(npcs, r), named);
      if chosen.None? || !npcs[chosen.value].hostile then None
      else
        var t := chosen.value;
        var n := npcs[t];
        var left := n.health - Min(n.health, Max(1, 5 + Best(w, s.pack, c, Weapon) - n.defense));
        if left == 0 then Slay(s.(npcs := npcs), c, r, t, luck, now)
        else Suffer(w, s.(npcs := npcs), c, r, t, left, Min(s.chars[c].health, Max(1, n.attack - Best(w, s.pack, c, Armor))), now)
  }

  // ---------------------------------------------------------------- corpses

  function Lootable(corpses: map<nat, Corpse>, r: nat): set<nat> {
    set k | k in corpses && corpses[k].room == r && Active(corpses[k])
  }

  ghost function LootFrom(w: Setting, s: Tables, c: nat, k: nat): Option<Tables>
    requires c in s.chars && k in s.corpses
  {
    var b := s.corpses[k];
    var who := if b.coinLooted then s.chars[c] else s.chars[c].(gold := s.chars[c].gold + b.coin);
    var takes := b.item.Some? && !b.itemLooted && Carried(s.pack, c) < CAPACITY;
    if takes && b.item.value !in w.items then None
    else
      var pack := if takes then Stow(s.pack, c, b.item.value, 1) else s.pack;
      var rest := b.(coinLooted := true, itemLooted := b.itemLooted || takes);
      Some(s.(chars := s.chars[c := who], pack := pack,
              corpses := if rest.itemLooted then s.corpses - {k} else s.corpses[k := rest]))
  }

  ghost function Loot(w: Setting, s: Tables, c: nat, r: nat, named: set<nat>, now: int): Option<Tables> {
    if !InRoom(s, c, r) || s.chars[c].dead then None
    else
      var u := s.(corpses := Unexpired(s.corpses, now));
      var chosen := Chosen(Lootable(u.corpses, r), named);
      if chosen.None? || u.corpses[chosen.value].owner != c then None
      else LootFrom(w, u, c, chosen.value)
  }

  // ---------------------------------------------------------------- everything else

  // `cost` is in copper; `clock` is the core's own clock, not the transaction time.
  function Resurrect(w: Setting, s: Tables, c: nat, pay: bool, cost: int, clock: int): Option<Tables> {
    if c !in s.chars || s.chars[c].ready.None? || s.chars[c].room.None? || !s.chars[c].dead
       || w.hall.None? || s.chars[c].room != w.hall then None
    else
      var who := s.chars[c];
      if (pay && (who.gold < cost || cost < 0)) || (!pay && who.ready.value > clock) then None
      else
        var alive := who.(health := Max(1, who.maxHealth / 2), stamina := who.maxStamina,
                           gold := if pay then who.gold - cost else who.gold,
                           dead := false, died := None, ready := None, deathRoom := None);
        Some(s.(chars := s.chars[c := alive], payments := if pay then s.payments + [Payment(c, cost)] else s.payments))
  }

  ghost function Give(w: Setting, s: Tables, c: nat, r: nat, items: set<nat>, npcs: set<nat>): Option<Tables> {
    if !InRoom(s, c, r) then None
    else
      var to, chosen := Chosen(Living(s.npcs, r), npcs), Chosen(Owned(w, s.pack, c), items);
      if to.None? || !s.npcs[to.value].crier || chosen.None? || chosen.value != w.manifest || w.docks.None? then None
      else
        var who := s.chars[c];
        Some(s.(pack := s.pack - {(c, w.manifest)},
                chars := s.chars[c := who.(gold := who.gold + REWARD_GOLD * COPPER_PER_GOLD,
                                            stamina := Min(who.stamina + 20, who.maxStamina))],
                deliveries := s.deliveries[c := 1 + if c in s.deliveries then s.deliveries[c] else 0],
                ground := s.ground[(w.docks.value, w.manifest) := 1]))
  }

  function Rest(w: Setting, s: Tables, c: nat, r: nat): Option<Tables> {
    if r !in w.rooms || !w.rooms[r].kind.Inn? || !InRoom(s, c, r) then None
    else Some(s.(chars := s.chars[c := s.chars[c].(health := s.chars[c].maxHealth, stamina := s.chars[c].maxStamina)]))
  }

  // What a script may award: at most 100 gold and 100 health in one run.
  function Award(s: Tables, c: nat, gold: int, heal: int): Option<Tables> {
    if c !in s.chars || !(0 <= gold <= 100) || !(0 <= heal <= 100) then None
    else if gold == 0 && heal == 0 then Some(s)
    else
      var who := s.chars[c];
      Some(s.(chars := s.chars[c := who.(gold := who.gold + gold * COPPER_PER_GOLD,
                                          health := Min(who.maxHealth, who.health + heal))]))
  }

  function Move(w: Setting, s: Tables, c: nat, d: Direction): Option<Tables> {
    if c !in s.chars || s.chars[c].room.None? || s.chars[c].dead || s.chars[c].room.value !in w.rooms then None
    else
      var exits := w.rooms[s.chars[c].room.value].exits;
      if d !in exits || exits[d] !in w.rooms then None
      else Some(s.(chars := s.chars[c := s.chars[c].(room := Some(exits[d]), stamina := Max(0, s.chars[c].stamina - MOVE_COST))]))
  }

  // ---------------------------------------------------------------- operations

  datatype Op =
    | TakeOp(c: nat, r: nat, named: set<nat>)
    | TakeAllOp(c: nat, r: nat, order: seq<nat>)
    | DropOp(c: nat, r: nat, named: set<nat>)
    | UseOp(c: nat, named: set<nat>)
    | EquipOp(c: nat, named: set<nat>)
    | UnequipOp(c: nat, named: set<nat>)
    | AttackOp(c: nat, r: nat, named: set<nat>, luck: Luck)
    | LootOp(c: nat, r: nat, named: set<nat>)
    | ResurrectOp(c: nat, pay: bool, cost: int, clock: int)
    | GiveOp(c: nat, r: nat, items: set<nat>, npcs: set<nat>)
    | RestOp(c: nat, r: nat)
    | AwardOp(c: nat, gold: int, heal: int)
    | MoveOp(c: nat, d: Direction)
    | LookOp(r: nat)       // listing the NPCs of a room brings back those that are due
    | SearchOp(r: nat)     // listing the corpses of a room removes those expired anywhere

  ghost function Performed(w: Setting, s: Tables, op: Op, now: int): Option<Tables> {
    match op
    case TakeOp(c, r, named) => Take(w, s, c, r, named)
    case TakeAllOp(c, r, order) => TakeAll(w, s, c, r, order)
    case DropOp(c, r, named) => Drop(w, s, c, r, named)
    case UseOp(c, named) => Use(w, s, c, named)
    case EquipOp(c, named) => Equip(w, s, c, named)
    case UnequipOp(c, named) => Unequip(w, s, c, named)
    case AttackOp(c, r, named, luck) => if LuckOk(luck, s.corpses) then Attack(w, s, c, r, named, luck, now) else None
    case LootOp(c, r, named) => Loot(w, s, c, r, named, now)
    case ResurrectOp(c, pay, cost, clock) => Resurrect(w, s, c, pay, cost, clock)
    case GiveOp(c, r, items, npcs) => Give(w, s, c, r, items, npcs)
    case RestOp(c, r) => Rest(w, s, c, r)
    case AwardOp(c, gold, heal) => Award(s, c, gold, heal)
    case MoveOp(c, d) => Move(w, s, c, d)
    case LookOp(r) => Some(s.(npcs := Respawned(s.npcs, r, now)))
    case SearchOp(r) => Some(s.(corpses := Unexpired(s.corpses, now)))
  }

  ghost function Stepped(w: Setting, s: Tables, op: Op, now: int): Tables {
    Performed(w, s, op, now).GetOr(s)
  }

  // A run: operations of any players in any order, each at its transaction time.
  ghost function Ran(w: Setting, s: Tables, ops: seq<(Op, int)>): Tables {
    if ops == [] then s else Stepped(w, Ran(w, s, ops[..|ops| - 1]), ops[|ops| - 1].0, ops[|ops| - 1].1)
  }
}
