// The table of players and character owners that every dispatch rebuilds
// (internal/telnet/presence.go).
module PlayerHub {
  import opened Wrappers
  import opened Terminalwire
  import opened CoreSession

  class Hub {
    var owners: map<nat, nat>   // character to session
    var players: map<nat, nat>  // session to room

    constructor ()
      ensures owners == map[] && players == map[]
    {
      owners := map[];
      players := map[];
    }

    // A character belongs to the first session that claims it.
    method Claim(character: nat, id: nat) returns (ok: bool)
      modifies this`owners
      ensures ok <==> character !in old(owners) || old(owners)[character] == id
      ensures owners == if ok then old(owners)[character := id] else old(owners)
    {
      if character in owners && owners[character] != id {
        return false;
      }
      owners := owners[character := id];
      return true;
    }

    // Only a player in the game that stands in a room is listed.
    method Update(id: nat, c: Conn)
      modifies this`players
      ensures players == if c.character.Some? && c.room.Some? && c.phase.InGame?
                         then old(players)[id := c.room.value] else old(players)
    {
      if c.character.None? || c.room.None? || !c.phase.InGame? {
        return;
      }
      players := players[id := c.room.value];
    }

    // Forgets the session and every character it owns.
    method Remove(id: nat)
      modifies this
      ensures players == old(players) - {id}
      ensures owners == map c | c in old(owners) && old(owners)[c] != id :: old(owners)[c]
    {
      players := players - {id};
      var todo := owners.Keys;
      while todo != {}
        invariant todo <= old(owners).Keys && players == old(players) - {id}
        invariant owners == map c | c in old(owners) && (c in todo || old(owners)[c] != id) :: old(owners)[c]
        decreases todo
      {
        var c :| c in todo;
        todo := todo - {c};
        if owners[c] == id {
          owners := owners - {c};
        }
      }
    }
  }
}
