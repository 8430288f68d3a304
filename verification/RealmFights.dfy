// A fight to the end: repeated attacks on one monster, in closed form.
module RealmFights {
  import opened Wrappers
  import opened WorldPlan
  import opened Realm
  import opened RealmSafety
  import opened RealmCoin

  // ---------------------------------------------------------------- the arithmetic

  // Health of the monster, health and stamina of the player.
  datatype Duel = Duel(enemy: int, health: int, stamina: int)

  // One round: d is what a hit does to the monster, h what the monster does back.
  function Round(f: Duel, d: int, h: int): Duel {
    if f.enemy <= 0 || f.health <= 0 || f.stamina < ATTACK_COST then f
    else
      var left := f.enemy - Min(f.enemy, d);
      Duel(left, if left == 0 then f.health else f.health - Min(f.health, h), f.stamina - ATTACK_COST)
  }

  function After(f: Duel, d: int, h: int, n: nat): Duel {
    if n == 0 then f else Round(After(f, d, h, n - 1), d, h)
  }

  // Rounds needed: health of the monster over damage, rounded up.
  function Needed(enemy: int, d: int): (r: int)
    requires d >= 1 && enemy >= 1
    ensures r >= 1 && (r - 1) * d < enemy <= r * d
    decreases enemy
  {
    if enemy <= d then 1
    else
      var r := Needed(enemy - d, d);
      assert (r + 1) * d == r * d + d && r * d == (r - 1) * d + d;
      r + 1
  }

  lemma {:induction false} Stuck(f: Duel, d: int, h: int, n: nat)
    requires f.enemy <= 0 || f.health <= 0 || f.stamina < ATTACK_COST
    ensures After(f, d, h, n) == f
  {
    if n > 0 {
      Stuck(f, d, h, n - 1);
    }
  }

  lemma {:induction false} FirstRound(f: Duel, d: int, h: int, n: nat)
    requires n >= 1
    ensures After(f, d, h, n) == After(Round(f, d, h), d, h, n - 1)
  {
    if n > 1 {
      FirstRound(f, d, h, n - 1);
    }
  }

  lemma NeededNext(enemy: int, d: int)
    requires d >= 1 && enemy >= 1
    ensures Needed(enemy, d) == if enemy <= d then 1 else 1 + Needed(enemy - d, d)
  {
  }

  lemma OneLess(r: int, h: int)
    ensures (r - 1) * h == (r - 2) * h + h
  {
  }

  // After R rounds the fight is won exactly when stamina lasted for R rounds and health
  // for R - 1 hits.
  lemma {:induction false} AtNeeded(f: Duel, d: int, h: int)
    requires f.enemy >= 1 && f.health >= 1 && f.stamina >= 0 && d >= 1 && h >= 1
    ensures var r := Needed(f.enemy, d);
            && (After(f, d, h, r).enemy == 0 <==> 2 * r <= f.stamina && (r - 1) * h < f.health)
            && (After(f, d, h, r).enemy == 0 ==> After(f, d, h, r) == Duel(0, f.health - (r - 1) * h, f.stamina - 2 * r))
    decreases f.enemy
  {
    var r := Needed(f.enemy, d);
    NeededNext(f.enemy, d);
    hide Needed, After;
    FirstRound(f, d, h, r);
    var g := Round(f, d, h);
    if f.stamina < ATTACK_COST || f.enemy <= d {
      Stuck(g, d, h, r - 1);
    } else if f.health <= h {
      Stuck(g, d, h, r - 1);
      Grows(r - 1, h);
    } else {
      assert g == Duel(f.enemy - d, f.health - h, f.stamina - ATTACK_COST);
      hide Round;
      AtNeeded(g, d, h);
      OneLess(r, h);
    }
  }

  lemma Grows(a: int, h: int)
    requires a >= 1 && h >= 1
    ensures a * h >= h
  {
  }

  predicate Over(f: Duel) {
    f.enemy <= 0 || f.health <= 0 || f.stamina < ATTACK_COST
  }

  // As long as the fight goes on, every round has done its damage.
  lemma {:induction false} Progress(f: Duel, d: int, h: int, n: nat)
    requires d >= 1
    ensures Over(After(f, d, h, n)) || After(f, d, h, n).enemy == f.enemy - n * d
  {
    if n > 0 {
      Progress(f, d, h, n - 1);
      assert n * d == (n - 1) * d + d;
    }
  }

  lemma {:induction false} StaysOver(f: Duel, d: int, h: int, m: nat, n: nat)
    requires m <= n && Over(After(f, d, h, m))
    ensures After(f, d, h, n) == After(f, d, h, m)
  {
    if n > m {
      StaysOver(f, d, h, m, n - 1);
    }
  }

  // The fight in closed form, for any number of rounds: it is won exactly when there were
  // at least R of them, stamina lasts for R and health for R - 1 hits. It then cost
  // exactly that; and after R rounds no further one changes anything.
  lemma ClosedForm(f: Duel, d: int, h: int, n: nat)
    requires f.enemy >= 1 && f.health >= 1 && f.stamina >= 0 && d >= 1 && h >= 1
    ensures var r := Needed(f.enemy, d);
            && (After(f, d, h, n).enemy == 0 <==> n >= r && 2 * r <= f.stamina && (r - 1) * h < f.health)
            && (After(f, d, h, n).enemy == 0 ==> After(f, d, h, n) == Duel(0, f.health - (r - 1) * h, f.stamina - 2 * r))
            && (n >= r ==> After(f, d, h, n) == After(f, d, h, r))
  {
    var r := Needed(f.enemy, d);
    hide Needed, After;
    AtNeeded(f, d, h);
    if n < r {
      StillStanding(f, d, h, n);
    } else {
      Progress(f, d, h, r);
      StaysOver(f, d, h, r, n);
    }
  }

  // Before round R the monster still stands.
  lemma {:induction false} StillStanding(f: Duel, d: int, h: int, n: nat)
    requires f.enemy >= 1 && d >= 1 && n < Needed(f.enemy, d)
    ensures After(f, d, h, n).enemy >= f.enemy - n * d && f.enemy - n * d >= 1
  {
    assert n * d <= (Needed(f.enemy, d) - 1) * d by { Ordered(n, Needed(f.enemy, d) - 1, d); }
    if n > 0 {
      StillStanding(f, d, h, n - 1);
      assert n * d == (n - 1) * d + d;
    }
  }

  // Nothing falls below zero, and a monster that stands has stood all along.
  lemma {:induction false} Bounded(f: Duel, d: int, h: int, n: nat)
    requires f.enemy >= 0 && f.health >= 0
    ensures After(f, d, h, n).enemy >= 0 && After(f, d, h, n).health >= 0
    ensures n > 0 && After(f, d, h, n).enemy > 0 ==> After(f, d, h, n - 1).enemy > 0
  {
    if n > 0 {
      Bounded(f, d, h, n - 1);
    }
  }

  lemma Ordered(a: int, b: int, d: int)
    requires a <= b && d >= 1
    ensures a * d <= b * d
  {
  }

  // ---------------------------------------------------------------- the attacks

  ghost function Damage(w: Setting, s: Tables, c: nat, t: nat): (d: int)
    requires t in s.npcs
    ensures d >= 1
  {
    Max(1, 5 + Best(w, s.pack, c, Weapon) - s.npcs[t].defense)
  }

  ghost function Harm(w: Setting, s: Tables, c: nat, t: nat): (h: int)
    requires t in s.npcs
    ensures h >= 1
  {
    Max(1, s.npcs[t].attack - Best(w, s.pack, c, Armor))
  }

  // The player stands before the monster, in a room for fighting, and the name typed
  // matches no other NPC there.
  ghost predicate Facing(w: Setting, s: Tables, c: nat, r: nat, t: nat, named: set<nat>) {
    && InRoom(s, c, r) && !s.chars[c].dead
    && r in w.rooms && (w.rooms[r].kind.Normal? || w.rooms[r].kind.Dungeon?)
    && t in s.npcs && s.npcs[t].room == r && s.npcs[t].hostile && t in named
    && forall n :: n in s.npcs && s.npcs[n].room == r && n in named ==> n == t
  }

  function View(s: Tables, c: nat, t: nat): Duel
    requires c in s.chars && t in s.npcs
  {
    Duel(s.npcs[t].health, s.chars[c].health, s.chars[c].stamina)
  }

  lemma ChosenTarget(w: Setting, s: Tables, c: nat, r: nat, t: nat, named: set<nat>, now: int)
    requires Facing(w, s, c, r, t, named) && s.npcs[t].health > 0
    ensures Respawned(s.npcs, r, now)[t] == s.npcs[t]
    ensures Chosen(Living(Respawned(s.npcs, r, now), r), named) == Some(t)
  {
    var living := Living(Respawned(s.npcs, r, now), r);
    assert Only(living, named, t);
  }

  // The tables follow the duel for as long as the monster stands.
  ghost predicate Follows(w: Setting, s: Tables, u: Tables, c: nat, r: nat, t: nat, named: set<nat>, f: Duel) {
    && c in s.chars && t in s.npcs && c in u.chars && t in u.npcs && View(u, c, t) == f
    && u.pack == s.pack && u.corpses == s.corpses && u.chars[c].experience == s.chars[c].experience
    && u.npcs[t].defense == s.npcs[t].defense && u.npcs[t].attack == s.npcs[t].attack
    && u.npcs[t].experience == s.npcs[t].experience && u.npcs[t].respawn == s.npcs[t].respawn
    && (if f.health > 0 then Facing(w, u, c, r, t, named) else u.chars[c].dead)
  }

  // The killing blow.
  ghost predicate Killed(s: Tables, u: Tables, c: nat, t: nat, luck: Luck, now: int) {
    && c in s.chars && t in s.npcs && c in u.chars && t in u.npcs
    && View(u, c, t) == Duel(0, s.chars[c].health, s.chars[c].stamina - ATTACK_COST)
    && u.chars[c].experience == s.chars[c].experience + s.npcs[t].experience
    && u.npcs[t].respawnAt == Some(now + s.npcs[t].respawn * SECOND)
    && luck.corpse in u.corpses && u.corpses[luck.corpse].owner == c && u.corpses[luck.corpse].npc == t
  }

  lemma KillRound(w: Setting, s: Tables, c: nat, r: nat, t: nat, named: set<nat>, luck: Luck, now: int)
    requires Facing(w, s, c, r, t, named) && 0 < s.npcs[t].health <= Damage(w, s, c, t)
    requires s.chars[c].health > 0 && s.chars[c].stamina >= ATTACK_COST && luck.corpse !in s.corpses
    ensures HasCorpse(Unexpired(s.corpses, now), t) ==> Attack(w, s, c, r, named, luck, now) == None
    ensures !HasCorpse(Unexpired(s.corpses, now), t) ==>
              Attack(w, s, c, r, named, luck, now).Some? && Killed(s, Attack(w, s, c, r, named, luck, now).value, c, t, luck, now)
  {
    ChosenTarget(w, s, c, r, t, named, now);
    hide Chosen, Best, HasCorpse;
  }

  lemma AttackSuffers(w: Setting, s: Tables, c: nat, r: nat, t: nat, named: set<nat>, luck: Luck, now: int)
    requires Facing(w, s, c, r, t, named) && s.npcs[t].health > Damage(w, s, c, t)
    requires s.chars[c].health > 0 && s.chars[c].stamina >= ATTACK_COST
    ensures Attack(w, s, c, r, named, luck, now) ==
            Suffer(w, s.(npcs := Respawned(s.npcs, r, now)), c, r, t, s.npcs[t].health - Damage(w, s, c, t),
                   Min(s.chars[c].health, Harm(w, s, c, t)), now)
  {
    ChosenTarget(w, s, c, r, t, named, now);
    hide Chosen, Best, Suffer;
  }

  lemma BlowRound(w: Setting, s: Tables, c: nat, r: nat, t: nat, named: set<nat>, luck: Luck, now: int)
    requires Facing(w, s, c, r, t, named) && s.npcs[t].health > Damage(w, s, c, t) && w.hall.Some?
    requires s.chars[c].health > 0 && s.chars[c].stamina >= ATTACK_COST
    ensures Attack(w, s, c, r, named, luck, now).Some?
    ensures Follows(w, s, Attack(w, s, c, r, named, luck, now).value, c, r, t, named,
                    Round(View(s, c, t), Damage(w, s, c, t), Harm(w, s, c, t)))
  {
    AttackSuffers(w, s, c, r, t, named, luck, now);
    ChosenTarget(w, s, c, r, t, named, now);
    hide Attack, Chosen, Living, Damage, Harm;
    SufferRound(w, s, c, r, t, named, Respawned(s.npcs, r, now), Damage(w, s, c, t), Harm(w, s, c, t), now);
  }

  lemma SufferRound(w: Setting, s: Tables, c: nat, r: nat, t: nat, named: set<nat>, npcs: map<nat, Npc>, d: int, h: int, now: int)
    requires Facing(w, s, c, r, t, named) && s.npcs[t].health > d >= 1 && h >= 1 && w.hall.Some?
    requires s.chars[c].health > 0 && s.chars[c].stamina >= ATTACK_COST
    requires npcs.Keys == s.npcs.Keys && npcs[t] == s.npcs[t] && forall n :: n in npcs ==> npcs[n].room == s.npcs[n].room
    ensures var u := Suffer(w, s.(npcs := npcs), c, r, t, s.npcs[t].health - d, Min(s.chars[c].health, h), now);
            u.Some? && Follows(w, s, u.value, c, r, t, named, Round(View(s, c, t), d, h))
  {
  }

  // Attacks of one player on one monster, nobody else acting.
  function Attacks(c: nat, r: nat, named: set<nat>, blows: seq<(Luck, int)>): seq<(Op, int)> {
    seq(|blows|, i requires 0 <= i < |blows| => (AttackOp(c, r, named, blows[i].0), blows[i].1))
  }

  ghost predicate Ready(s: Tables, t: nat, blows: seq<(Luck, int)>) {
    forall i :: 0 <= i < |blows| ==>
      LuckOk(blows[i].0, s.corpses) && !HasCorpse(Unexpired(s.corpses, blows[i].1), t)
  }

  lemma DeadCannotAttack(w: Setting, s: Tables, c: nat, r: nat, named: set<nat>, luck: Luck, now: int)
    requires c in s.chars && s.chars[c].dead
    ensures Attack(w, s, c, r, named, luck, now) == None
  {
  }

  lemma {:induction false} FightFollows(w: Setting, s: Tables, c: nat, r: nat, t: nat, named: set<nat>, blows: seq<(Luck, int)>)
    requires Facing(w, s, c, r, t, named) && s.npcs[t].health > 0 && s.chars[c].health > 0 && w.hall.Some?
    requires Ready(s, t, blows) && After(View(s, c, t), Damage(w, s, c, t), Harm(w, s, c, t), |blows|).enemy > 0
    ensures Follows(w, s, Ran(w, s, Attacks(c, r, named, blows)), c, r, t, named,
                    After(View(s, c, t), Damage(w, s, c, t), Harm(w, s, c, t), |blows|))
    decreases |blows|
  {
    hide HasCorpse, Chosen, Best, Attack, LuckOk, Stepped;
    if blows != [] {
      hide Facing, Follows, Damage, Harm, Round;
      var n := |blows| - 1;
      var f, d, h := View(s, c, t), Damage(w, s, c, t), Harm(w, s, c, t);
      assert Ready(s, t, blows[..n]);
      Bounded(f, d, h, n + 1);
      Bounded(f, d, h, n);
      FightFollows(w, s, c, r, t, named, blows[..n]);
      assert Attacks(c, r, named, blows)[..n] == Attacks(c, r, named, blows[..n]);
      NextBlow(w, s, Ran(w, s, Attacks(c, r, named, blows[..n])), c, r, t, named, blows[n].0, blows[n].1, After(f, d, h, n));
    } else {
      assert Attacks(c, r, named, blows) == [];
    }
  }

  lemma NextBlow(w: Setting, s: Tables, u: Tables, c: nat, r: nat, t: nat, named: set<nat>, luck: Luck, now: int, f: Duel)
    requires Follows(w, s, u, c, r, t, named, f) && f.enemy > 0 && w.hall.Some? && f.health >= 0
    requires LuckOk(luck, s.corpses) && !HasCorpse(Unexpired(s.corpses, now), t)
    requires Round(f, Damage(w, s, c, t), Harm(w, s, c, t)).enemy > 0
    ensures Follows(w, s, Stepped(w, u, AttackOp(c, r, named, luck), now), c, r, t, named,
                    Round(f, Damage(w, s, c, t), Harm(w, s, c, t)))
  {
    hide HasCorpse, Chosen, Best, Attack;
    if f.health <= 0 {
      DeadCannotAttack(w, u, c, r, named, luck, now);
    } else if f.stamina < ATTACK_COST {
      TiredCannotAttack(w, u, c, r, named, luck, now);
    } else {
      BlowRound(w, u, c, r, t, named, luck, now);
    }
  }

  lemma TiredCannotAttack(w: Setting, s: Tables, c: nat, r: nat, named: set<nat>, luck: Luck, now: int)
    requires c in s.chars && s.chars[c].stamina < ATTACK_COST
    ensures Attack(w, s, c, r, named, luck, now) == None
  {
  }

  // No other NPC in the room answers to the name.
  ghost predicate Alone(s: Tables, r: nat, t: nat, named: set<nat>) {
    forall n :: n in s.npcs && s.npcs[n].room == r && n in named ==> n == t
  }

  // The tables after the last blow of a fight: as the duel says.
  ghost predicate Ends(w: Setting, s: Tables, v: Tables, c: nat, r: nat, t: nat, named: set<nat>, last: (Luck, int), g: Duel) {
    && c in s.chars && t in s.npcs && c in v.chars && t in v.npcs && View(v, c, t) == g
    && (g.enemy > 0 ==> v.chars[c].experience == s.chars[c].experience && v.corpses == s.corpses)
    && (g.enemy == 0 ==>
          && v.chars[c].experience == s.chars[c].experience + s.npcs[t].experience
          && v.npcs[t].respawnAt == Some(last.1 + s.npcs[t].respawn * SECOND)
          && last.0.corpse in v.corpses && v.corpses[last.0.corpse].owner == c && Alone(v, r, t, named))
  }

  lemma FightEnds(w: Setting, s: Tables, c: nat, r: nat, t: nat, named: set<nat>, blows: seq<(Luck, int)>)
    requires Facing(w, s, c, r, t, named) && s.npcs[t].health > 0 && s.chars[c].health > 0
    requires w.hall.Some? && Ready(s, t, blows) && |blows| == Needed(s.npcs[t].health, Damage(w, s, c, t))
    ensures Ends(w, s, Ran(w, s, Attacks(c, r, named, blows)), c, r, t, named, blows[|blows| - 1],
                 After(View(s, c, t), Damage(w, s, c, t), Harm(w, s, c, t), |blows|))
  {
    var f, d, h, n := View(s, c, t), Damage(w, s, c, t), Harm(w, s, c, t), |blows|;
    var earlier := blows[..n - 1];
    assert Ready(s, t, earlier) && LuckOk(blows[n - 1].0, s.corpses) && !HasCorpse(Unexpired(s.corpses, blows[n - 1].1), t);
    var g := After(f, d, h, n - 1);
    assert After(f, d, h, n) == Round(g, d, h) && f.health >= 0 && f.enemy >= 0;
    hide *;
    StillStanding(f, d, h, n - 1);
    Bounded(f, d, h, n - 1);
    FightFollows(w, s, c, r, t, named, earlier);
    AttacksNext(w, s, c, r, named, blows);
    LastBlow(w, s, Ran(w, s, Attacks(c, r, named, earlier)), c, r, t, named, blows[n - 1].0, blows[n - 1].1, g);
  }

  lemma AttacksNext(w: Setting, s: Tables, c: nat, r: nat, named: set<nat>, blows: seq<(Luck, int)>)
    requires blows != []
    ensures var n := |blows| - 1;
            Ran(w, s, Attacks(c, r, named, blows)) ==
            Stepped(w, Ran(w, s, Attacks(c, r, named, blows[..n])), AttackOp(c, r, named, blows[n].0), blows[n].1)
  {
    var n := |blows| - 1;
    assert Attacks(c, r, named, blows)[..n] == Attacks(c, r, named, blows[..n]);
    hide Stepped;
  }

  lemma LastBlow(w: Setting, s: Tables, u: Tables, c: nat, r: nat, t: nat, named: set<nat>, luck: Luck, now: int, f: Duel)
    requires Follows(w, s, u, c, r, t, named, f) && f.enemy > 0 && w.hall.Some? && f.health >= 0
    requires LuckOk(luck, s.corpses) && !HasCorpse(Unexpired(s.corpses, now), t)
    ensures var g := Round(f, Damage(w, s, c, t), Harm(w, s, c, t));
            Ends(w, s, Stepped(w, u, AttackOp(c, r, named, luck), now), c, r, t, named, (luck, now), g)
  {
    hide HasCorpse, Chosen, Best, Attack;
    if Round(f, Damage(w, s, c, t), Harm(w, s, c, t)).enemy > 0 {
      NextBlow(w, s, u, c, r, t, named, luck, now, f);
    } else {
      KillRound(w, u, c, r, t, named, luck, now);
      AttackNpcs(w, u, c, r, named, luck, now);
    }
  }

  // ---------------------------------------------------------------- any number of attacks

  // The tables after the first m of the blows.
  ghost function Fought(w: Setting, s: Tables, c: nat, r: nat, named: set<nat>, blows: seq<(Luck, int)>, m: nat): Tables
    requires m <= |blows|
  {
    Ran(w, s, Attacks(c, r, named, blows[..m]))
  }

  // The monster stands and nothing has been won.
  ghost predicate Stands(s: Tables, u: Tables, c: nat, t: nat) {
    && t in u.npcs && u.npcs[t].health > 0 && u.corpses == s.corpses
    && c in s.chars && c in u.chars && u.chars[c].experience == s.chars[c].experience
  }

  // It is down at exactly this price: experience granted once, the respawn time set and
  // the corpse there.
  ghost predicate Won(s: Tables, u: Tables, c: nat, t: nat, rounds: int, h: int, last: (Luck, int)) {
    && t in u.npcs && t in s.npcs && c in s.chars && c in u.chars && u.npcs[t].health == 0
    && u.chars[c].health == s.chars[c].health - (rounds - 1) * h
    && u.chars[c].stamina == s.chars[c].stamina - 2 * rounds
    && u.chars[c].experience == s.chars[c].experience + s.npcs[t].experience
    && u.npcs[t].respawnAt == Some(last.1 + s.npcs[t].respawn * SECOND)
    && last.0.corpse in u.corpses && u.corpses[last.0.corpse].owner == c
  }

  lemma StandsBefore(w: Setting, s: Tables, c: nat, r: nat, t: nat, named: set<nat>, blows: seq<(Luck, int)>, m: nat)
    requires Facing(w, s, c, r, t, named) && s.npcs[t].health > 0 && s.chars[c].health > 0 && w.hall.Some?
    requires Ready(s, t, blows) && m <= |blows|
    requires After(View(s, c, t), Damage(w, s, c, t), Harm(w, s, c, t), m).enemy > 0
    ensures Stands(s, Fought(w, s, c, r, named, blows, m), c, t)
  {
    assert Ready(s, t, blows[..m]);
    FightFollows(w, s, c, r, t, named, blows[..m]);
    hide Ran, Attacks, Damage, Harm, After, Ready, Facing;
  }

  lemma FoughtNext(w: Setting, s: Tables, c: nat, r: nat, named: set<nat>, blows: seq<(Luck, int)>, m: nat)
    requires m < |blows|
    ensures Fought(w, s, c, r, named, blows, m + 1) ==
            Stepped(w, Fought(w, s, c, r, named, blows, m), AttackOp(c, r, named, blows[m].0), blows[m].1)
  {
    assert blows[..m + 1][..m] == blows[..m];
    hide Stepped, Ran, Attacks;
    AttacksNext(w, s, c, r, named, blows[..m + 1]);
  }

  // A monster that is down and not due is no target.
  lemma NothingToHit(w: Setting, s: Tables, c: nat, r: nat, t: nat, named: set<nat>, luck: Luck, now: int)
    requires t in s.npcs && s.npcs[t].health == 0 && s.npcs[t].respawnAt.Some? && s.npcs[t].respawnAt.value > now
    requires Alone(s, r, t, named)
    ensures Stepped(w, s, AttackOp(c, r, named, luck), now) == s
  {
    hide LuckOk, Best;
    var npcs := Respawned(s.npcs, r, now);
    assert npcs[t] == s.npcs[t];
    assert forall n :: n in Living(npcs, r) && n in named ==> n == t;
  }

  lemma {:induction false} StaysDown(w: Setting, s: Tables, c: nat, r: nat, t: nat, named: set<nat>, blows: seq<(Luck, int)>, m: nat, n: nat)
    requires m <= n <= |blows|
    requires var u := Fought(w, s, c, r, named, blows, m);
             && t in u.npcs && u.npcs[t].health == 0 && u.npcs[t].respawnAt.Some? && Alone(u, r, t, named)
             && forall i :: m <= i < n ==> blows[i].1 < u.npcs[t].respawnAt.value
    ensures Fought(w, s, c, r, named, blows, n) == Fought(w, s, c, r, named, blows, m)
    decreases n
  {
    hide Fought, Stepped, Alone;
    if n > m {
      StaysDown(w, s, c, r, t, named, blows, m, n - 1);
      FoughtNext(w, s, c, r, named, blows, n - 1);
      NothingToHit(w, Fought(w, s, c, r, named, blows, m), c, r, t, named, blows[n - 1].0, blows[n - 1].1);
    }
  }

  // When any number of blows is won.
  ghost predicate Wins(w: Setting, s: Tables, c: nat, t: nat, n: nat)
    requires c in s.chars && t in s.npcs && s.npcs[t].health > 0
  {
    var r := Needed(s.npcs[t].health, Damage(w, s, c, t));
    n >= r && 2 * r <= s.chars[c].stamina && (r - 1) * Harm(w, s, c, t) < s.chars[c].health
  }

  lemma FightAtNeeded(w: Setting, s: Tables, c: nat, r: nat, t: nat, named: set<nat>, blows: seq<(Luck, int)>)
    requires Facing(w, s, c, r, t, named) && s.npcs[t].health > 0 && s.chars[c].health > 0 && s.chars[c].stamina >= 0
    requires w.hall.Some? && Ready(s, t, blows) && Wins(w, s, c, t, |blows|)
    ensures var m := Needed(s.npcs[t].health, Damage(w, s, c, t));
            var u := Fought(w, s, c, r, named, blows, m);
            Won(s, u, c, t, m, Harm(w, s, c, t), blows[m - 1]) && Alone(u, r, t, named)
  {
    var f, d, h := View(s, c, t), Damage(w, s, c, t), Harm(w, s, c, t);
    var m := Needed(f.enemy, d);
    assert Ready(s, t, blows[..m]);
    FightEnds(w, s, c, r, t, named, blows[..m]);
    hide HasCorpse, Chosen, Best, Attack, Facing, Damage, Harm, Needed, Round, After, Ready, Attacks, Ran, Stepped, Alone;
    ClosedForm(f, d, h, m);
    assert blows[..m][m - 1] == blows[m - 1];
  }

  // The fight in closed form, on the tables, for any number of attacks: with fixed
  // equipment and nobody else acting, the monster is brought down by some of n attacks
  // exactly when n is at least R, stamina lasts for R rounds and health for R - 1 hits. It
  // goes down in the R-th and not before, and otherwise not at all; and until it is due
  // again no further attack changes anything.
  lemma FightWon(w: Setting, s: Tables, c: nat, r: nat, t: nat, named: set<nat>, blows: seq<(Luck, int)>)
    requires Facing(w, s, c, r, t, named) && s.npcs[t].health > 0 && s.chars[c].health > 0 && s.chars[c].stamina >= 0
    requires w.hall.Some? && Ready(s, t, blows)
    ensures var n, m := |blows|, Needed(s.npcs[t].health, Damage(w, s, c, t));
            && (Wins(w, s, c, t, n) <==> exists k :: 0 <= k <= n && !Stands(s, Fought(w, s, c, r, named, blows, k), c, t))
            && (Wins(w, s, c, t, n) ==>
                  && (forall k :: 0 <= k < m ==> Stands(s, Fought(w, s, c, r, named, blows, k), c, t))
                  && Won(s, Fought(w, s, c, r, named, blows, m), c, t, m, Harm(w, s, c, t), blows[m - 1])
                  && ((forall i :: m <= i < n ==> blows[i].1 < blows[m - 1].1 + s.npcs[t].respawn * SECOND) ==>
                        Fought(w, s, c, r, named, blows, n) == Fought(w, s, c, r, named, blows, m)))
  {
    var f, d, h, n := View(s, c, t), Damage(w, s, c, t), Harm(w, s, c, t), |blows|;
    var m := Needed(f.enemy, d);
    forall k: nat | k <= n && !Wins(w, s, c, t, k)
      ensures Stands(s, Fought(w, s, c, r, named, blows, k), c, t)
    {
      hide Fought, Stands, Ready, Facing, Damage, Harm, Needed, After;
      ClosedForm(f, d, h, k);
      Bounded(f, d, h, k);
      StandsBefore(w, s, c, r, t, named, blows, k);
    }
    if Wins(w, s, c, t, n) {
      FightAtNeeded(w, s, c, r, t, named, blows);
      hide Fought, Facing, Ready, Damage, Harm, Needed, Alone;
      assert !Stands(s, Fought(w, s, c, r, named, blows, m), c, t);
      if forall i :: m <= i < n ==> blows[i].1 < blows[m - 1].1 + s.npcs[t].respawn * SECOND {
        StaysDown(w, s, c, r, t, named, blows, m, n);
      }
    }
  }

  // A killing blow is refused, and with it the whole attack, exactly when an earlier
  // corpse of the monster still holds something and has not expired.
  lemma SecondCorpseRefused(w: Setting, s: Tables, c: nat, r: nat, t: nat, named: set<nat>, luck: Luck, now: int)
    requires Facing(w, s, c, r, t, named) && 0 < s.npcs[t].health <= Damage(w, s, c, t)
    requires s.chars[c].health > 0 && s.chars[c].stamina >= ATTACK_COST && LuckOk(luck, s.corpses)
    ensures Stepped(w, s, AttackOp(c, r, named, luck), now) == s <==>
            exists k :: k in s.corpses && s.corpses[k].npc == t && Active(s.corpses[k]) && s.corpses[k].expires > now
  {
    KillRound(w, s, c, r, t, named, luck, now);
    hide Attack, Chosen, Best;
    var live := Unexpired(s.corpses, now);
    if k :| k in s.corpses && s.corpses[k].npc == t && Active(s.corpses[k]) && s.corpses[k].expires > now {
      assert k in live;
    }
  }
}
