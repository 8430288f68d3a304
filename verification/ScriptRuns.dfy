// Running the published script of a room, item or NPC for a player
// (internal/game/scripts.go): state and rewards are committed together or not at all.
// The interpreter is a parameter.
module ScriptRuns {
  import opened Wrappers
  import opened Tally
  import opened Realm
  import opened RealmSafety
  import opened RealmCoin
  import opened ScriptStore
  import opened ScriptHistory

  type State = map<string, string>

  datatype Output = Output(state: State, gold: int, heal: int)

  // Who triggers what: `kind` and `target` name the scripted thing.
  datatype Trigger = Trigger(c: nat, room: nat, target: nat, kind: Type, hook: string, text: string)

  // Source, state and trigger to effects, or an error.
  type Interpreter = (string, State, Trigger) -> Option<Output>

  // Script state is kept per script, target and player.
  type States = map<(nat, nat, nat), State>

  datatype Played = Played(tables: Tables, states: States)

  predicate Reachable(w: Setting, s: Tables, t: Trigger) {
    && t.c in s.chars && s.chars[t.c].room == Some(t.room) && t.room in w.rooms
    && (t.kind.OnRoom? ==> t.target == t.room)
    && (t.kind.OnNpc? ==> t.target in s.npcs && s.npcs[t.target].room == t.room)
    && (t.kind.OnItem? ==> (t.c, t.target) in s.pack && s.pack[(t.c, t.target)].quantity > 0)
  }

  function StateOf(states: States, k: (nat, nat, nat)): State {
    if k in states then states[k] else map[]
  }

  // None is an error; nothing attached or published is no error and no effect.
  function RunScript(run: Interpreter, w: Setting, db: Scripts, p: Played, t: Trigger): Option<Played> {
    if t.kind.Unsupported? then None
    else
      var source := Running(db, t.kind, t.target);
      if source.None? then Some(p)
      else if !Reachable(w, p.tables, t) then None
      else
        var k := (db.attached[(t.kind, t.target)].value, t.target, t.c);
        var out := run(source.value, StateOf(p.states, k), t);
        if out.None? then None
        else
          var rewarded := Award(p.tables, t.c, out.value.gold, out.value.heal);
          if rewarded.None? then None else Some(Played(rewarded.value, p.states[k := out.value.state]))
  }

  lemma RunningAttached(db: Scripts, kind: Type, target: nat)
    requires Running(db, kind, target).Some?
    ensures (kind, target) in db.attached && db.attached[(kind, target)].Some?
  {
  }

  lemma ReachableHere(w: Setting, s: Tables, t: Trigger)
    requires Reachable(w, s, t)
    ensures t.c in s.chars
  {
  }

  class Runner {
    const run: Interpreter
    const w: Setting
    var db: Scripts
    var tables: Tables
    var states: States

    constructor (run: Interpreter, w: Setting, db: Scripts, p: Played)
      ensures this.run == run && this.w == w && this.db == db && View() == p
    {
      this.run, this.w, this.db, tables, states := run, w, db, p.tables, p.states;
    }

    function View(): Played
      reads this
    {
      Played(tables, states)
    }

    method Play(t: Trigger) returns (ok: bool)
      modifies this`tables, this`states
      ensures ok <==> RunScript(run, w, db, old(View()), t).Some?
      ensures View() == RunScript(run, w, db, old(View()), t).GetOr(old(View()))
    {
      hide Running, Reachable;
      if t.kind.Unsupported? {
        return false;
      }
      var source := Running(db, t.kind, t.target);
      if source.None? {
        return true;
      }
      if !Reachable(w, tables, t) {
        return false;
      }
      RunningAttached(db, t.kind, t.target);
      var k := (db.attached[(t.kind, t.target)].value, t.target, t.c);
      var state := if k in states then states[k] else map[];
      var out := run(source.value, state, t);
      if out.None? || !(0 <= out.value.gold <= 100) || !(0 <= out.value.heal <= 100) {
        return false;
      }
      ReachableHere(w, tables, t);
      if out.value.gold != 0 || out.value.heal != 0 {
        var who := tables.chars[t.c];
        tables := tables.(chars := tables.chars[t.c :=
          who.(gold := who.gold + out.value.gold * COPPER_PER_GOLD, health := Min(who.maxHealth, who.health + out.value.heal))]);
      }
      states := states[k := out.value.state];
      return true;
    }
  }

  // What runs is the published source, never a draft: a builder's save or restore, by
  // anyone, on any script, changes no later run.
  lemma DraftsChangeNoRun(run: Interpreter, w: Setting, db: Scripts, ctx: Context, c: Command, p: Played, t: Trigger)
    requires HistoryOk(db) && Commanded(db, ctx, c).Some? && !(c.On? && ChangesWhatRuns(c.verb))
    ensures RunScript(run, w, Commanded(db, ctx, c).value, p, t) == RunScript(run, w, db, p, t)
  {
    DraftsDoNotRun(db, ctx, c, t.kind, t.target);
    AttachedKept(db, ctx, c);
    hide Running, Commanded, HistoryOk, Reachable, Award;
  }

  lemma AttachedKept(db: Scripts, ctx: Context, c: Command)
    requires Commanded(db, ctx, c).Some? && !(c.On? && ChangesWhatRuns(c.verb))
    ensures Commanded(db, ctx, c).value.attached == db.attached
  {
    hide Recorded, Template;
  }

  // What runs is the content recorded for the published revision of the script attached.
  lemma RunsPublished(db: Scripts, kind: Type, target: nat)
    requires HistoryOk(db) && Running(db, kind, target).Some?
    ensures (kind, target) in db.attached && db.attached[(kind, target)].Some?
    ensures var id := db.attached[(kind, target)].value;
            && id in db.scripts && db.scripts[id].published.Some?
            && Recorded(db.audit, id, db.scripts[id].published.value) == Running(db, kind, target)
  {
    var id := db.attached[(kind, target)].value;
    assert ScriptOk(db.audit, id, db.scripts[id]);
  }

  // The state a series of runs of one script, target and player leaves: each starts from
  // what the last one left, and failed runs leave no trace.
  function ChainedState(run: Interpreter, db: Scripts, state: State, triggers: seq<Trigger>): State {
    if triggers == [] then state
    else
      var last := triggers[|triggers| - 1];
      var before := ChainedState(run, db, state, triggers[..|triggers| - 1]);
      var source := Running(db, last.kind, last.target);
      var out := if source.None? then None else run(source.value, before, last);
      if out.Some? && 0 <= out.value.gold <= 100 && 0 <= out.value.heal <= 100 then out.value.state else before
  }

  function Plays(run: Interpreter, w: Setting, db: Scripts, p: Played, triggers: seq<Trigger>): Played {
    if triggers == [] then p
    else
      var before := Plays(run, w, db, p, triggers[..|triggers| - 1]);
      RunScript(run, w, db, before, triggers[|triggers| - 1]).GetOr(before)
  }

  // The trigger runs a script, and its state is row k.
  predicate Touches(w: Setting, db: Scripts, s: Tables, k: (nat, nat, nat), t: Trigger) {
    && !t.kind.Unsupported? && Running(db, t.kind, t.target).Some? && Reachable(w, s, t)
    && (t.kind, t.target) in db.attached && db.attached[(t.kind, t.target)] == Some(k.0) && t.target == k.1 && t.c == k.2
  }

  // The triggers of a series that concern row k, in order.
  function Touching(w: Setting, db: Scripts, s: Tables, k: (nat, nat, nat), triggers: seq<Trigger>): seq<Trigger> {
    if triggers == [] then []
    else
      Touching(w, db, s, k, triggers[..|triggers| - 1])
      + if Touches(w, db, s, k, triggers[|triggers| - 1]) then [triggers[|triggers| - 1]] else []
  }

  // Scripts award coin and health; they move nobody and nothing.
  lemma {:induction false} PlaysMoveNobody(run: Interpreter, w: Setting, db: Scripts, p: Played, triggers: seq<Trigger>, t: Trigger)
    ensures Reachable(w, Plays(run, w, db, p, triggers).tables, t) <==> Reachable(w, p.tables, t)
  {
    if triggers != [] {
      var before := Plays(run, w, db, p, triggers[..|triggers| - 1]);
      PlaysMoveNobody(run, w, db, p, triggers[..|triggers| - 1], t);
      RunMovesNobody(run, w, db, before, triggers[|triggers| - 1], t);
    }
  }

  lemma RunMovesNobody(run: Interpreter, w: Setting, db: Scripts, p: Played, u: Trigger, t: Trigger)
    ensures Reachable(w, RunScript(run, w, db, p, u).GetOr(p).tables, t) <==> Reachable(w, p.tables, t)
  {
    hide Running;
  }

  lemma RunTouches(run: Interpreter, w: Setting, db: Scripts, p: Played, k: (nat, nat, nat), t: Trigger)
    ensures StateOf(RunScript(run, w, db, p, t).GetOr(p).states, k) ==
            if Touches(w, db, p.tables, k, t) then ChainedState(run, db, StateOf(p.states, k), [t]) else StateOf(p.states, k)
  {
    assert [t][..0] == [];
    if Running(db, t.kind, t.target).Some? {
      RunningAttached(db, t.kind, t.target);
      if Reachable(w, p.tables, t) {
        ReachableHere(w, p.tables, t);
      }
    }
    hide Running, Reachable;
  }

  lemma ChainNext(run: Interpreter, db: Scripts, state: State, triggers: seq<Trigger>, t: Trigger)
    ensures ChainedState(run, db, state, triggers + [t]) == ChainedState(run, db, ChainedState(run, db, state, triggers), [t])
  {
    assert (triggers + [t])[..|triggers|] == triggers && [t][..0] == [];
    hide Running;
  }

  // Over any series of runs, by any players on anything, in any order: the state of a
  // script, target and player is what its own successful runs, chained, have made of it;
  // all other runs leave it alone.
  lemma {:induction false} StateChained(run: Interpreter, w: Setting, db: Scripts, p: Played, triggers: seq<Trigger>, k: (nat, nat, nat))
    ensures StateOf(Plays(run, w, db, p, triggers).states, k) ==
            ChainedState(run, db, StateOf(p.states, k), Touching(w, db, p.tables, k, triggers))
  {
    hide Running, RunScript, Reachable, StateOf;
    if triggers != [] {
      var n := |triggers| - 1;
      var before := Plays(run, w, db, p, triggers[..n]);
      StateChained(run, w, db, p, triggers[..n], k);
      PlaysMoveNobody(run, w, db, p, triggers[..n], triggers[n]);
      RunTouches(run, w, db, before, k, triggers[n]);
      var mine := Touching(w, db, p.tables, k, triggers[..n]);
      ChainNext(run, db, StateOf(p.states, k), mine, triggers[n]);
      assert mine + [] == mine;
    }
  }

  // A run mints exactly the coin the script awards, and never harms the player.
  lemma RunRewards(run: Interpreter, w: Setting, db: Scripts, p: Played, t: Trigger)
    requires Sound(w, p.tables) && RunScript(run, w, db, p, t).Some?
    ensures var q := RunScript(run, w, db, p, t).value;
            && Sound(w, q.tables)
            && Coin(p.tables) <= Coin(q.tables) <= Coin(p.tables) + 100 * COPPER_PER_GOLD
            && (forall c :: c in p.tables.chars ==> c in q.tables.chars && q.tables.chars[c].health >= p.tables.chars[c].health)
  {
    hide Coin;
    if Running(db, t.kind, t.target).Some? {
      var k := (db.attached[(t.kind, t.target)].value, t.target, t.c);
      var out := run(Running(db, t.kind, t.target).value, StateOf(p.states, k), t).value;
      var op := AwardOp(t.c, out.gold, out.heal);
      AwardBalances(w, p.tables, op, 0);
      PersonSafe(w, p.tables, op, 0);
      assert CharOk(w, p.tables.chars[t.c]);
    }
  }
}
