// What single commands on builder scripts do: who may give them, when they are refused,
// what then runs where, and what the audit keeps of it.
module ScriptEffects {
  import opened Wrappers
  import Realm
  import opened ScriptStore
  import opened ScriptHistory
  import opened ScriptRuns

  // ---------------------------------------------------------------- attaching

  // An admin attaches a script iff it is active and the target is there; the target then
  // runs what is published of it, and everything else runs what it ran before.
  lemma AttachRuns(db: Scripts, ctx: Context, id: nat, target: nat)
    requires HistoryOk(db) && MayOpen(db, ctx, id)
    ensures var s, r := db.scripts[id], Commanded(db, ctx, On(id, AttachTo(Some(target))));
            && (r.Some? <==> ctx.account.value.admin && s.kind != Unsupported && s.active && (s.kind, target) in db.attached)
            && (r.Some? ==>
                  && r.value.scripts == db.scripts
                  && Running(r.value, s.kind, target) == s.source && s.source.Some?
                  && forall k: Type, t: nat :: (k, t) != (s.kind, target) ==> Running(r.value, k, t) == Running(db, k, t))
  {
    HistoryScript(db, id);
    hide Recorded, HistoryOk;
  }

  // An admin detaches a script iff the target has that very script; the target then runs
  // nothing, and everything else runs what it ran before.
  lemma DetachStops(db: Scripts, ctx: Context, id: nat, target: nat)
    requires MayOpen(db, ctx, id)
    ensures var s, r := db.scripts[id], Commanded(db, ctx, On(id, DetachFrom(Some(target))));
            && (r.Some? <==> ctx.account.value.admin && s.kind != Unsupported && (s.kind, target) in db.attached
                             && db.attached[(s.kind, target)] == Some(id))
            && (r.Some? ==>
                  && r.value.scripts == db.scripts
                  && Running(r.value, s.kind, target) == None
                  && forall k: Type, t: nat :: (k, t) != (s.kind, target) ==> Running(r.value, k, t) == Running(db, k, t))
  {
    hide Recorded;
  }

  // Attaching again what was detached restores every attachment.
  lemma AttachUndoesDetach(db: Scripts, ctx: Context, id: nat, target: nat)
    requires MayOpen(db, ctx, id) && db.scripts[id].active
    requires Commanded(db, ctx, On(id, DetachFrom(Some(target)))).Some?
    ensures var off := Commanded(db, ctx, On(id, DetachFrom(Some(target)))).value;
            var again := Commanded(off, ctx, On(id, AttachTo(Some(target))));
            again.Some? && again.value.scripts == db.scripts && again.value.attached == db.attached
  {
    hide Recorded;
  }

  // ---------------------------------------------------------------- drafts

  // The author or an admin saves a draft of up to 16 KiB iff the script still has the
  // revision that was opened; the script then has exactly that draft, under the next
  // revision, and nothing else has changed but the audit, which records it.
  lemma SaveStores(db: Scripts, ctx: Context, id: nat, content: string, revision: nat)
    requires ctx.account.Some? && id in db.scripts
    ensures var s, r := db.scripts[id], Commanded(db, ctx, On(id, SaveDraft(content, revision)));
            && (r.Some? <==> && (ctx.account.value.admin || (ctx.account.value.builder && s.owner == Some(ctx.actor)))
                             && |content| <= 16 * 1024 && revision == s.revision)
            && (r.Some? ==>
                  && id in r.value.scripts && r.value.attached == db.attached && r.value.scripts - {id} == db.scripts - {id}
                  && r.value.scripts[id].content == content && r.value.scripts[id].revision == revision + 1
                  && r.value.scripts[id] == s.(content := content, revision := revision + 1)
                  && r.value.audit == db.audit + [Entry(id, Some(ctx.actor), Save, revision + 1, Some(content))])
  {
  }

  // A new script is refused iff its name or kind is not allowed, the author has a hundred,
  // or its ID is taken. It starts from a template, unpublished, and owned by its author.
  lemma NewDraft(db: Scripts, ctx: Context, name: string, kind: Type)
    requires Permitted(ctx.account)
    ensures var r := Commanded(db, ctx, New(name, kind));
            && (r.Some? <==>
                  && kind != Unsupported && 1 <= |name| <= 40 && 'a' <= name[0] <= 'z'
                  && (forall i :: 0 <= i < |name| ==> 'a' <= name[i] <= 'z' || '0' <= name[i] <= '9' || name[i] == '_' || name[i] == '-')
                  && |Authored(db.scripts, ctx.actor)| < 100 && ctx.newId !in db.scripts)
            && (r.Some? ==>
                  && ctx.newId in r.value.scripts && r.value.attached == db.attached && r.value.scripts - {ctx.newId} == db.scripts
                  && var s := r.value.scripts[ctx.newId];
                     && s.name == name && s.kind == kind && s.owner == Some(ctx.actor) && s.revision == 1
                     && !s.active && s.source == None && s.published == None
                     && s.content == "def " + (if kind.OnRoom? then "on_enter" else if kind.OnItem? then "on_use" else "on_talk")
                                     + "(event):\n    tell(\"Hello, \" + event.player.name + \"!\")\n")
  {
    if kind != Unsupported {
      Greets(kind);
    }
    hide Template;
  }

  lemma Greets(kind: Type)
    requires kind != Unsupported
    ensures Template(kind) == "def " + (if kind.OnRoom? then "on_enter" else if kind.OnItem? then "on_use" else "on_talk")
                              + "(event):\n    tell(\"Hello, \" + event.player.name + \"!\")\n"
  {
  }

  // ---------------------------------------------------------------- publishing

  // An admin publishes a draft iff the revision reviewed is the current one and the
  // interpreter accepts it, and may always disable.
  lemma PublishAllowed(db: Scripts, ctx: Context, id: nat, revision: nat)
    requires MayOpen(db, ctx, id)
    ensures var s, r := db.scripts[id], Commanded(db, ctx, On(id, PublishDraft(revision)));
            && (r.Some? <==> ctx.account.value.admin && revision == s.revision && ctx.valid)
            && (r.Some? ==> r.value.scripts == db.scripts[id := s.(active := true, source := Some(s.content), published := Some(revision))]
                            && r.value.attached == db.attached)
    ensures var s, r := db.scripts[id], Commanded(db, ctx, On(id, DisableScript));
            && (r.Some? <==> ctx.account.value.admin)
            && (r.Some? ==> r.value.scripts == db.scripts[id := s.(active := false)] && r.value.attached == db.attached)
  {
  }

  // ---------------------------------------------------------------- rights

  // Without a builder's or admin's account every command is refused, and a builder who is
  // no admin changes no script but its own, and no attachment.
  lemma OwnScriptsOnly(db: Scripts, ctx: Context, c: Command, i: nat)
    requires Commanded(db, ctx, c).Some? && i in db.scripts
    ensures ctx.account.Some? && (ctx.account.value.admin || ctx.account.value.builder)
    ensures var t := Commanded(db, ctx, c).value;
            && i in t.scripts && t.scripts[i].owner == db.scripts[i].owner
            && t.scripts[i].name == db.scripts[i].name && t.scripts[i].kind == db.scripts[i].kind
            && (!ctx.account.value.admin ==> t.attached == db.attached)
            && (t.scripts[i] != db.scripts[i] ==> ctx.account.value.admin || db.scripts[i].owner == Some(ctx.actor))
  {
    hide Recorded, Template, ValidName, Authored;
  }

  // Every command that changes anything leaves exactly one new entry: of its actor, the
  // script it concerned, the revision that script has then, and the draft if there is one.
  lemma ChangesAudited(db: Scripts, ctx: Context, c: Command)
    requires Commanded(db, ctx, c).Some? && Commanded(db, ctx, c).value != db
    ensures var t := Commanded(db, ctx, c).value;
            && |t.audit| == |db.audit| + 1 && t.audit[..|db.audit|] == db.audit
            && var e := t.audit[|db.audit|];
               && (c.New? || (c.On? && c.id == e.script)) && e.script in t.scripts
               && (forall i :: i in t.scripts && i != e.script ==> i in db.scripts && t.scripts[i] == db.scripts[i])
               && e.actor == Some(ctx.actor) && e.revision == t.scripts[e.script].revision
               && (e.content.Some? <==> c.New? || c.verb.SaveDraft? || c.verb.RestoreRevision?)
               && (e.content.Some? ==> e.content.value == t.scripts[e.script].content)
               && (c.On? ==> match c.verb
                             case SaveDraft(_, _) => e.action == Save
                             case RestoreRevision(_) => e.action == Restore
                             case PublishDraft(_) => e.action == Publish
                             case DisableScript => e.action == Disable
                             case AttachTo(target) => target.Some? && e.action == Attach(target.value)
                             case DetachFrom(target) => target.Some? && e.action == Detach(target.value)
                             case _ => false)
  {
    hide Recorded, Template, ValidName, Authored;
  }

  lemma Fewer<T>(a: set<T>, b: set<T>)
    requires a <= b
    ensures |a| <= |b|
  {
    if a != {} {
      var x :| x in a;
      Fewer(a - {x}, b - {x});
    }
  }

  lemma StepAuthored(db: Scripts, step: Step, actor: nat)
    requires |Authored(db.scripts, actor)| <= 100
    ensures |Authored(Stepped(db, step).scripts, actor)| <= 100
  {
    var t := Stepped(db, step);
    var before, after := Authored(db.scripts, actor), Authored(t.scripts, actor);
    if step.Run? && step.command.New? && Commanded(db, step.ctx, step.command).Some? && step.ctx.actor == actor {
      assert after == before + {step.ctx.newId};
    } else {
      StepOwners(db, step, actor);
      Fewer(after, before);
    }
  }

  lemma StepOwners(db: Scripts, step: Step, actor: nat)
    requires !(step.Run? && step.command.New? && Commanded(db, step.ctx, step.command).Some? && step.ctx.actor == actor)
    ensures Authored(Stepped(db, step).scripts, actor) <= Authored(db.scripts, actor)
  {
    hide Recorded, Template, ValidName;
  }

  // However builders go about it, nobody ever owns more than a hundred scripts.
  lemma {:induction false} HundredEach(targets: set<(Type, nat)>, steps: seq<Step>, actor: nat)
    ensures |Authored(Ran(Empty(targets), steps).scripts, actor)| <= 100
  {
    if steps == [] {
      assert Authored(map[], actor) == {};
    } else {
      HundredEach(targets, steps[..|steps| - 1], actor);
      StepAuthored(Ran(Empty(targets), steps[..|steps| - 1]), steps[|steps| - 1], actor);
    }
  }

  // ---------------------------------------------------------------- running

  // Where nothing is attached and published, triggering it changes nothing and is no error.
  lemma NothingPlays(run: Interpreter, w: Realm.Setting, db: Scripts, p: Played, t: Trigger)
    ensures RunScript(run, w, db, p, t) == Some(p) || t.kind == Unsupported || Running(db, t.kind, t.target).Some?
    ensures t.kind == Unsupported ==> RunScript(run, w, db, p, t) == None
  {
    hide Running, Reachable;
  }

  // A script runs for a player who stands in the room it says and next to what it
  // triggers: that room itself, an NPC in it, or an item it carries. It is given its
  // published source and the state kept for script, target and player; what it returns is
  // paid and stored unless it asks for too much. Otherwise nothing happens.
  lemma ScriptPlays(run: Interpreter, w: Realm.Setting, db: Scripts, p: Played, t: Trigger, source: string)
    requires t.kind != Unsupported && Running(db, t.kind, t.target) == Some(source) && t.room in w.rooms && t.c in p.tables.chars
    requires (t.kind, t.target) in db.attached && db.attached[(t.kind, t.target)].Some?
    ensures var k, who := (db.attached[(t.kind, t.target)].value, t.target, t.c), p.tables.chars[t.c];
            var out, q := run(source, if k in p.states then p.states[k] else map[], t), RunScript(run, w, db, p, t);
            && (q.Some? <==>
                  && who.room == Some(t.room)
                  && (t.kind == OnRoom ==> t.target == t.room)
                  && (t.kind == OnNpc ==> t.target in p.tables.npcs && p.tables.npcs[t.target].room == t.room)
                  && (t.kind == OnItem ==> (t.c, t.target) in p.tables.pack && p.tables.pack[(t.c, t.target)].quantity > 0)
                  && out.Some? && 0 <= out.value.gold <= 100 && 0 <= out.value.heal <= 100)
            && (q.Some? ==>
                  && q.value.states == p.states[k := out.value.state]
                  && t.c in q.value.tables.chars
                  && q.value.tables == p.tables.(chars := p.tables.chars[t.c := q.value.tables.chars[t.c]])
                  && (who.health <= who.maxHealth ==>
                        q.value.tables.chars[t.c] == who.(gold := who.gold + out.value.gold * 10_000,
                          health := if who.health + out.value.heal <= who.maxHealth then who.health + out.value.heal else who.maxHealth)))
  {
    hide Running;
    assert p.tables.chars[t.c := p.tables.chars[t.c]] == p.tables.chars;
  }
}
