// Concrete tables for the exceptions of the world: a monster its unlooted corpse protects,
// and a potion that takes all the health there is.
module RealmExceptions {
  import opened Wrappers
  import opened Tally
  import opened WorldPlan
  import opened Realm
  import opened RealmSafety
  import opened RealmCoin
  import opened RealmFights

  // One field where a rat lives, and poison no shipped catalogue has.
  const POISON := Item(Plain, false, Some(-10), None, 0, 0)

  const FIELD := Setting(map[1 := POISON], map[1 := Place(Normal, map[])], None, None, 0)

  const HERO := Character(10, 100, 10, 100, 0, 0, Some(1), false, None, None, None)

  const RAT := Npc(1, 5, 5, true, false, 1, 0, 1, 3, 30, None, None, 0)

  const MEADOW := Tables(map[1 := HERO], map[(1, 1) := Held(1, false)], map[], map[4 := RAT], map[], [], map[])

  lemma OneRow(c: nat)
    ensures Carried(MEADOW.pack, c) <= 1
  {
    if c == 1 {
      assert PackOf(MEADOW.pack, c) == map[(1, 1) := 1];
      var none: map<(nat, nat), int> := map[];
      SumPut(none, (1, 1), 1);
      assert none[(1, 1) := 1] == map[(1, 1) := 1];
    } else {
      assert PackOf(MEADOW.pack, c) == map[];
    }
  }

  lemma MeadowSound()
    ensures Sound(FIELD, MEADOW)
  {
    forall c: nat
      ensures Carried(MEADOW.pack, c) <= CAPACITY
    {
      OneRow(c);
    }
    hide Carried;
  }

  // A living player drinks and is left without health, and is not dead.
  lemma PoisonDrunk()
    ensures Sound(FIELD, MEADOW)
    ensures var t := Use(FIELD, MEADOW, 1, {1});
            t.Some? && t.value.chars[1].health == 0 && !t.value.chars[1].dead
  {
    MeadowSound();
    assert Only(Realm.Owned(FIELD, MEADOW.pack, 1), {1}, 1);
    hide Sound;
  }

  const FIRST := Luck(1, 1, 0, 6)

  const SECOND_BLOW := Luck(1, 1, 0, 7)

  // The rat is slain at time 0 and its coin left lying.
  const SLAIN := MEADOW.(
    chars := map[1 := HERO.(stamina := 8, experience := 3)],
    npcs := map[4 := RAT.(health := 0, respawnAt := Some(30 * SECOND))],
    corpses := map[6 := Corpse(4, 1, 1, 10101, None, false, true, CORPSE_LIFE)])

  // Thirty seconds later it is back.
  const RISEN := SLAIN.(npcs := map[4 := RAT])

  lemma OneBlow(s: Tables)
    requires s.npcs == map[4 := RAT] && s.pack == MEADOW.pack
    ensures Damage(FIELD, s, 1, 4) >= 5
  {
  }

  lemma RatSlain()
    ensures Stepped(FIELD, MEADOW, AttackOp(1, 1, {4}, FIRST), 0) == SLAIN
  {
    OneBlow(MEADOW);
    ChosenTarget(FIELD, MEADOW, 1, 1, 4, {4}, 0);
    assert Respawned(MEADOW.npcs, 1, 0) == MEADOW.npcs;
    hide Chosen, Best, Living;
    assert Attack(FIELD, MEADOW, 1, 1, {4}, FIRST, 0) == Slay(MEADOW, 1, 1, 4, FIRST, 0);
    SlayIsSlain();
  }

  lemma SlayIsSlain()
    ensures Slay(MEADOW, 1, 1, 4, FIRST, 0) == Some(SLAIN)
  {
    var none: map<nat, Corpse> := map[];
    assert Unexpired(MEADOW.corpses, 0) == none;
    var b := Corpse(4, 1, 1, 10101, None, false, true, CORPSE_LIFE);
    assert none[6 := b] == map[6 := b];
    assert MEADOW.npcs[4 := SLAIN.npcs[4]] == SLAIN.npcs;
    assert MEADOW.chars[1 := SLAIN.chars[1]] == SLAIN.chars;
  }

  lemma RatRises()
    ensures Stepped(FIELD, SLAIN, LookOp(1), 30 * SECOND) == RISEN
  {
    assert Respawned(SLAIN.npcs, 1, 30 * SECOND) == map[4 := RAT];
  }

  // A monster slain and risen again cannot be slain while its first corpse lies unlooted:
  // from a sound state, the third operation of this run changes nothing.
  lemma CorpseProtects()
    ensures Sound(FIELD, MEADOW)
    ensures var run := [(AttackOp(1, 1, {4}, FIRST), 0), (LookOp(1), 30 * SECOND)];
            var blow := AttackOp(1, 1, {4}, SECOND_BLOW);
            Ran(FIELD, MEADOW, run) == RISEN && Stepped(FIELD, RISEN, blow, 30 * SECOND) == RISEN
  {
    MeadowSound();
    RatSlain();
    RatRises();
    var run := [(AttackOp(1, 1, {4}, FIRST), 0), (LookOp(1), 30 * SECOND)];
    assert run[..1] == [(AttackOp(1, 1, {4}, FIRST), 0)] && run[..1][..0] == [];
    assert Ran(FIELD, MEADOW, run[..1]) == SLAIN by {
      hide Stepped;
      assert Ran(FIELD, MEADOW, run[..1][..0]) == MEADOW;
    }
    OneBlow(RISEN);
    hide Stepped, Sound, Damage;
    SecondCorpseRefused(FIELD, RISEN, 1, 1, 4, {4}, SECOND_BLOW, 30 * SECOND);
  }
}
