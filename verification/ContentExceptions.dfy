// A concrete installation in which an operator's own exit is lost.
module ContentExceptions {
  import opened Wrappers
  import opened WorldPlan
  import opened ScriptStore
  import opened ContentInstall
  import opened ContentGrowth

  // A pack of two rooms: a street north of the square.
  const SQUARE := Room("square", "Town Square", "A square.", "safe", "", map[North := "street"])

  const STREET := Room("street", "High Street", "A street.", "normal", "", map[South := "square"])

  const WORLD := Pack([SQUARE, STREET], [], [])

  // The square an operator built before there were packs: its north exit leads back to it.
  const OLD_SQUARE := RoomRow("Town Square", "Ours.", None, "safe", Some(map[Compass(North) := Some(5)]), None, 0)

  const BEFORE := Content(map[5 := OLD_SQUARE], map[], map[], Scripts(map[], [], map[]))

  const FRESH := Mint((key: string) => 0, (key: string) => if key == "square" then 8 else 7, (item: string) => None, 1)

  lemma WorldIsPack()
    ensures PackOk(WORLD) && KeysOk(BEFORE.rooms, BEFORE.keys) && MintOk(FRESH, BEFORE, WORLD.rooms)
  {
    var rooms := WORLD.rooms;
    assert rooms[0] == SQUARE && rooms[1] == STREET && SQUARE.key != STREET.key;
    assert Returns(rooms, 0, North);
    assert Returns(rooms, 1, South);
  }

  lemma SquareAdopted()
    ensures Place(FRESH, Placing(BEFORE.rooms, map[], map[], {}), SQUARE) ==
            Some(Placing(BEFORE.rooms, map["square" := 5], map["square" := 5], {"square"}))
  {
    assert BEFORE.rooms[5].name == SQUARE.name;
    assert Adopts(BEFORE.rooms, SQUARE);
    assert Oldest(BEFORE.rooms, SQUARE.name) == 5;
    var none: set<string>, nowhere: map<string, nat> := {}, map[];
    assert none + {"square"} == {"square"} && nowhere["square" := 5] == map["square" := 5];
  }

  lemma StreetBuilt()
    ensures Place(FRESH, Placing(BEFORE.rooms, map["square" := 5], map["square" := 5], {"square"}), STREET) ==
            Some(Placing(BEFORE.rooms[7 := NewRow(FRESH, STREET)], map["square" := 5, "street" := 7],
                         map["square" := 5, "street" := 7], {"square", "street"}))
  {
    assert STREET.key !in LEGACY;
    var square: map<string, nat> := map["square" := 5];
    assert {"square"} + {"street"} == {"square", "street"} && square["street" := 7] == map["square" := 5, "street" := 7];
  }

  lemma WorldPlaced()
    ensures var p := PlaceAll(FRESH, BEFORE, WORLD.rooms);
            p.Some? && p.value.keys == map["square" := 5, "street" := 7]
  {
    SquareAdopted();
    StreetBuilt();
    assert WORLD.rooms[..1] == [SQUARE] && [SQUARE][..0] == [];
    hide Place;
    assert PlaceAll(FRESH, BEFORE, []) == Some(Placing(BEFORE.rooms, BEFORE.keys, map[], {}));
    assert PlaceAll(FRESH, BEFORE, [SQUARE]) == Place(FRESH, Placing(BEFORE.rooms, map[], map[], {}), SQUARE);
  }

  // The installation succeeds, adopts the operator's square, and its north exit leads to
  // the new street.
  lemma CustomExitLost()
    ensures PackOk(WORLD) && KeysOk(BEFORE.rooms, BEFORE.keys) && MintOk(FRESH, BEFORE, WORLD.rooms)
    ensures var after := Installation(FRESH, BEFORE, WORLD);
            && after.Some? && "square" in after.value.keys && after.value.keys["square"] == 5
            && HasExit(BEFORE.rooms, 5, North, 5) && !HasExit(after.value.rooms, 5, North, 5)
  {
    WorldIsPack();
    WorldPlaced();
    hide PlaceAll, Installation, PackOk, MintOk, Unplaceable, AdoptedAs;
    InstallationFails(FRESH, BEFORE, WORLD);
    var p := InstalledRows(FRESH, BEFORE, WORLD);
    var after := Installation(FRESH, BEFORE, WORLD).value;
    KeysKept(p, FRESH, WORLD, after);
    AdoptionKeeps(FRESH, BEFORE, WORLD, 0, Compass(North));
    SquareLeads(after);
  }

  lemma SquareLeads(after: Content)
    requires after.keys == map["square" := 5, "street" := 7] && AdoptedAs(BEFORE, after, SQUARE, Compass(North))
    ensures HasExit(BEFORE.rooms, 5, North, 5) && !HasExit(after.rooms, 5, North, 5)
  {
    assert 5 in BEFORE.rooms && BEFORE.rooms[5] == OLD_SQUARE;
    assert after.keys[SQUARE.exits[North]] == 7;
  }
}
