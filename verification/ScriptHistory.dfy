// What the audit history guarantees over every run of script commands.
module ScriptHistory {
  import opened Wrappers
  import opened ScriptStore

  datatype Step =
    | Run(ctx: Context, command: Command)
    | Bundle(id: nat, name: string, source: string)

  function Stepped(db: Scripts, step: Step): Scripts {
    match step
    case Run(ctx, command) =>
      var r := Commanded(db, ctx, command);
      if r.Some? then r.value else db
    case Bundle(id, name, source) => Bundled(db, id, name, source)
  }

  function Ran(db: Scripts, steps: seq<Step>): Scripts {
    if steps == [] then db else Stepped(Ran(db, steps[..|steps| - 1]), steps[|steps| - 1])
  }

  // Every revision up to the current one has exactly one recorded content; the draft is
  // the content of the current revision and the published source that of its own.
  ghost predicate ScriptOk(audit: seq<Entry>, id: nat, s: Script) {
    && s.revision >= 1
    && (forall r :: 1 <= r <= s.revision ==> Recorded(audit, id, r).Some?)
    && Recorded(audit, id, s.revision) == Some(s.content)
    && (s.published.Some? <==> s.source.Some?)
    && (s.published.Some? ==> 1 <= s.published.value <= s.revision && Recorded(audit, id, s.published.value) == s.source)
    && (s.active ==> s.source.Some?)
  }

  // Records of one script are numbered upwards, so no revision is recorded twice.
  ghost predicate RecordsOk(db: Scripts) {
    && (forall i :: 0 <= i < |db.audit| && db.audit[i].content.Some? ==>
          db.audit[i].script in db.scripts && 1 <= db.audit[i].revision <= db.scripts[db.audit[i].script].revision)
    && Upwards(db.audit)
  }

  ghost predicate Upwards(audit: seq<Entry>) {
    forall i, j :: (0 <= i < j < |audit| && audit[i].content.Some? && audit[j].content.Some?
                    && audit[i].script == audit[j].script) ==> audit[i].revision < audit[j].revision
  }

  ghost predicate HistoryOk(db: Scripts) {
    && RecordsOk(db)
    && (forall k :: k in db.attached && db.attached[k].Some? ==> db.attached[k].value in db.scripts)
    && forall id :: id in db.scripts ==> ScriptOk(db.audit, id, db.scripts[id])
  }

  lemma RecordedNext(audit: seq<Entry>, e: Entry, id: nat, revision: nat)
    ensures Recorded(audit + [e], id, revision) ==
            if e.script == id && e.revision == revision && e.content.Some? then e.content else Recorded(audit, id, revision)
  {
    assert (audit + [e])[..|audit|] == audit;
  }

  lemma ScriptNext(audit: seq<Entry>, e: Entry, id: nat, s: Script)
    requires ScriptOk(audit, id, s) && (e.script == id && e.content.Some? ==> e.revision > s.revision)
    ensures ScriptOk(audit + [e], id, s)
  {
    forall r
      ensures 1 <= r <= s.revision ==> Recorded(audit + [e], id, r) == Recorded(audit, id, r)
    {
      if r >= 1 {
        RecordedNext(audit, e, id, r);
      }
    }
  }

  // An entry that records nothing, beside a script that keeps its draft.
  lemma NotedOk(db: Scripts, id: nat, t: Script, e: Entry)
    requires HistoryOk(db) && id in db.scripts && e.script == id && e.content.None?
    requires t.revision == db.scripts[id].revision && ScriptOk(db.audit, id, t)
    ensures HistoryOk(db.(scripts := db.scripts[id := t], audit := db.audit + [e]))
  {
    hide ScriptOk;
    var after := db.(scripts := db.scripts[id := t], audit := db.audit + [e]);
    forall i | i in after.scripts
      ensures ScriptOk(after.audit, i, after.scripts[i])
    {
      ScriptNext(db.audit, e, i, after.scripts[i]);
    }
  }

  // An entry that records the draft of the next revision, perhaps of a new script.
  lemma DraftedOk(db: Scripts, id: nat, t: Script, e: Entry)
    requires HistoryOk(db) && e.script == id && e.content == Some(t.content) && e.revision == t.revision
    requires t.revision == if id in db.scripts then db.scripts[id].revision + 1 else 1
    requires t.published.Some? <==> t.source.Some?
    requires t.active ==> t.source.Some?
    requires if id in db.scripts then t.source == db.scripts[id].source && t.published == db.scripts[id].published
             else t.source.Some? ==> t.source == Some(t.content) && t.published == Some(1)
    ensures HistoryOk(db.(scripts := db.scripts[id := t], audit := db.audit + [e]))
  {
    var after := db.(scripts := db.scripts[id := t], audit := db.audit + [e]);
    forall i | i in after.scripts && i != id
      ensures ScriptOk(after.audit, i, after.scripts[i])
    {
      ScriptNext(db.audit, e, i, after.scripts[i]);
    }
    forall r
      ensures Recorded(after.audit, id, r) == if r == t.revision then Some(t.content) else if r >= 0 then Recorded(db.audit, id, r) else None
    {
      if r >= 0 {
        RecordedNext(db.audit, e, id, r);
      }
    }
    if id in db.scripts {
      assert ScriptOk(db.audit, id, db.scripts[id]);
    }
    assert ScriptOk(after.audit, id, t);
  }

  lemma HistoryScript(db: Scripts, id: nat)
    requires HistoryOk(db) && id in db.scripts
    ensures ScriptOk(db.audit, id, db.scripts[id])
  {
  }

  lemma AttachedOk(db: Scripts, k: (Type, nat), id: Option<nat>)
    requires HistoryOk(db) && (id.Some? ==> id.value in db.scripts)
    ensures HistoryOk(db.(attached := db.attached[k := id]))
  {
    hide ScriptOk;
  }

  lemma DoneOk(db: Scripts, ctx: Context, admin: bool, id: nat, verb: Verb)
    requires HistoryOk(db) && id in db.scripts && Done(db, ctx, admin, id, verb).Some?
    ensures HistoryOk(Done(db, ctx, admin, id, verb).value)
  {
    hide HistoryOk, Recorded;
    var s := db.scripts[id];
    HistoryScript(db, id);
    var actor := Some(ctx.actor);
    var after := Done(db, ctx, admin, id, verb).value;
    var entry := Entry(id, actor, Save, s.revision, None);
    match verb
    case ShowHistory =>
    case Show =>
    case Test =>
    case SaveDraft(content, revision) =>
      var t := s.(content := content, revision := s.revision + 1);
      DraftedOk(db, id, t, Entry(id, actor, Save, s.revision + 1, Some(content)));
    case RestoreRevision(revision) =>
      var t := s.(content := Recorded(db.audit, id, revision).value, revision := s.revision + 1);
      DraftedOk(db, id, t, Entry(id, actor, Restore, s.revision + 1, Some(t.content)));
    case PublishDraft(revision) =>
      NotedOk(db, id, s.(active := true, source := Some(s.content), published := Some(s.revision)), entry.(action := Publish));
    case DisableScript =>
      NotedOk(db, id, s.(active := false), entry.(action := Disable));
    case AttachTo(target) =>
      Rewritten(db, id);
      NotedOk(db, id, s, entry.(action := Attach(target.value)));
      AttachedOk(db.(audit := after.audit), (s.kind, target.value), Some(id));
    case DetachFrom(target) =>
      Rewritten(db, id);
      NotedOk(db, id, s, entry.(action := Detach(target.value)));
      AttachedOk(db.(audit := after.audit), (s.kind, target.value), None);
  }

  lemma Rewritten(db: Scripts, id: nat)
    requires id in db.scripts
    ensures db.scripts[id := db.scripts[id]] == db.scripts
  {
  }

  // Every step keeps the history, whoever takes it and whether or not it succeeds.
  lemma HistoryKept(db: Scripts, step: Step)
    requires HistoryOk(db)
    ensures HistoryOk(Stepped(db, step))
  {
    hide HistoryOk, Done, Template;
    match step
    case Bundle(id, name, source) =>
      if id !in db.scripts {
        DraftedOk(db, id, Script(name, OnRoom, source, 1, true, Some(source), Some(1), None),
                  Entry(id, None, Install, 1, Some(source)));
      }
    case Run(ctx, command) =>
      if command.New? && Created(db, ctx, command.name, command.kind).Some? {
        var s := Script(command.name, command.kind, Template(command.kind), 1, false, None, None, Some(ctx.actor));
        DraftedOk(db, ctx.newId, s, Entry(ctx.newId, Some(ctx.actor), Create, 1, Some(s.content)));
      }
      if command.On? && MayOpen(db, ctx, command.id) && Done(db, ctx, ctx.account.value.admin, command.id, command.verb).Some? {
        DoneOk(db, ctx, ctx.account.value.admin, command.id, command.verb);
      }
  }

  // In every reachable state a revision has one content, the draft is the content of
  // its revision, and what is published is the content of its own.
  lemma {:induction false} RunHistory(targets: set<(Type, nat)>, steps: seq<Step>)
    ensures HistoryOk(Ran(Empty(targets), steps))
  {
    if steps != [] {
      RunHistory(targets, steps[..|steps| - 1]);
      HistoryKept(Ran(Empty(targets), steps[..|steps| - 1]), steps[|steps| - 1]);
    }
  }

  // No script yet, and nothing attached to the rooms, items and NPCs there are.
  function Empty(targets: set<(Type, nat)>): Scripts {
    Scripts(map[], [], map t | t in targets :: None)
  }

  // ---------------------------------------------------------------- what runs

  predicate ChangesWhatRuns(verb: Verb) {
    verb.PublishDraft? || verb.DisableScript? || verb.AttachTo? || verb.DetachFrom?
  }

  // Saving and restoring never change what runs on any room, item or NPC; only an
  // admin's publish, disable, attach or detach does.
  lemma DraftsDoNotRun(db: Scripts, ctx: Context, c: Command, kind: Type, target: nat)
    requires HistoryOk(db) && Commanded(db, ctx, c).Some?
    ensures Running(Commanded(db, ctx, c).value, kind, target) != Running(db, kind, target) ==>
              c.On? && ChangesWhatRuns(c.verb) && ctx.account.value.admin
  {
    hide Recorded, ScriptOk, RecordsOk, ValidName, Template;
  }

  // Publishing makes the reviewed draft what runs wherever the script is attached, and
  // disabling stops it everywhere.
  lemma PublishedRuns(db: Scripts, ctx: Context, id: nat, revision: nat, target: nat)
    requires Commanded(db, ctx, On(id, PublishDraft(revision))).Some?
    requires (db.scripts[id].kind, target) in db.attached && db.attached[(db.scripts[id].kind, target)] == Some(id)
    ensures revision == db.scripts[id].revision
    ensures Running(Commanded(db, ctx, On(id, PublishDraft(revision))).value, db.scripts[id].kind, target) == Some(db.scripts[id].content)
    ensures var off := Commanded(db, ctx, On(id, DisableScript));
            off.Some? && Running(off.value, db.scripts[id].kind, target) == None
  {
  }

  // ---------------------------------------------------------------- over runs

  ghost predicate Later(a: Scripts, b: Scripts) {
    && (forall id :: id in a.scripts ==> id in b.scripts && a.scripts[id].revision <= b.scripts[id].revision)
    && |a.audit| <= |b.audit| && b.audit[..|a.audit|] == a.audit
  }

  lemma DoneLater(db: Scripts, ctx: Context, admin: bool, id: nat, verb: Verb)
    requires id in db.scripts && Done(db, ctx, admin, id, verb).Some?
    ensures Later(db, Done(db, ctx, admin, id, verb).value)
  {
    hide Recorded;
  }

  lemma StepLater(db: Scripts, step: Step)
    ensures Later(db, Stepped(db, step))
  {
    hide Done, ValidName, Template, Authored;
    if step.Run? && step.command.On? && MayOpen(db, step.ctx, step.command.id) {
      var admin := step.ctx.account.value.admin;
      if Done(db, step.ctx, admin, step.command.id, step.command.verb).Some? {
        DoneLater(db, step.ctx, admin, step.command.id, step.command.verb);
      }
    }
  }

  // The history only grows, and no revision goes back.
  lemma {:induction false} RunLater(db: Scripts, steps: seq<Step>, n: nat)
    requires n <= |steps|
    ensures Later(Ran(db, steps[..n]), Ran(db, steps))
    decreases |steps|
  {
    if n == |steps| {
      assert steps[..n] == steps;
    } else {
      var m := |steps| - 1;
      assert steps[..m][..n] == steps[..n];
      RunLater(db, steps[..m], n);
      StepLater(Ran(db, steps[..m]), steps[m]);
      var a, b, c := Ran(db, steps[..n]), Ran(db, steps[..m]), Ran(db, steps);
      assert c.audit[..|a.audit|] == c.audit[..|b.audit|][..|a.audit|];
    }
  }

  predicate IsSave(step: Step, id: nat, revision: nat) {
    step.Run? && step.command.On? && step.command.id == id
    && step.command.verb.SaveDraft? && step.command.verb.revision == revision
  }

  predicate Succeeds(db: Scripts, step: Step) {
    step.Run? && Commanded(db, step.ctx, step.command).Some?
  }

  // Of several saves from one opened revision, at most one succeeds.
  lemma OneSaveWins(db: Scripts, steps: seq<Step>, i: nat, j: nat, id: nat, revision: nat)
    requires i < j < |steps| && IsSave(steps[i], id, revision) && IsSave(steps[j], id, revision)
    requires Succeeds(Ran(db, steps[..i]), steps[i])
    ensures !Succeeds(Ran(db, steps[..j]), steps[j])
  {
    var saved := Ran(db, steps[..i + 1]);
    assert steps[..i + 1][..i] == steps[..i];
    assert id in saved.scripts && saved.scripts[id].revision == revision + 1;
    assert steps[..j][..i + 1] == steps[..i + 1];
    RunLater(db, steps[..j], i + 1);
  }

  lemma {:induction false} RecordedLater(audit: seq<Entry>, n: nat, id: nat, revision: nat)
    requires n <= |audit| && Recorded(audit[..n], id, revision).Some?
    requires Upwards(audit)
    ensures Recorded(audit, id, revision) == Recorded(audit[..n], id, revision)
    decreases |audit|
  {
    if n == |audit| {
      assert audit[..n] == audit;
    } else {
      var m := |audit| - 1;
      assert audit[..m][..n] == audit[..n];
      RecordedLater(audit[..m], n, id, revision);
      var k := RecordedAt(audit[..n], id, revision);
      assert audit[k] == audit[..n][k];
    }
  }

  lemma {:induction false} RecordedAt(audit: seq<Entry>, id: nat, revision: nat) returns (k: nat)
    requires Recorded(audit, id, revision).Some?
    ensures k < |audit| && audit[k].script == id && audit[k].revision == revision && audit[k].content.Some?
    ensures audit[k].content == Recorded(audit, id, revision)
  {
    var m := |audit| - 1;
    if audit[m].script == id && audit[m].revision == revision && audit[m].content.Some? {
      k := m;
    } else {
      k := RecordedAt(audit[..m], id, revision);
      assert audit[..m][k] == audit[k];
    }
  }

  // Restoring undoes: whatever was saved, published or restored since, restoring a
  // revision brings back the draft it had, as a new revision.
  lemma RestoreBringsBack(targets: set<(Type, nat)>, steps: seq<Step>, n: nat, ctx: Context, id: nat)
    requires n <= |steps|
    requires id in Ran(Empty(targets), steps[..n]).scripts && MayOpen(Ran(Empty(targets), steps), ctx, id)
    ensures var s := Ran(Empty(targets), steps[..n]).scripts[id];
            var now := Ran(Empty(targets), steps);
            var r := Commanded(now, ctx, On(id, RestoreRevision(s.revision)));
            && r.Some? && r.value.scripts[id].content == s.content
            && r.value.scripts[id].revision == now.scripts[id].revision + 1
  {
    hide Ran, Recorded;
    var before, now := Ran(Empty(targets), steps[..n]), Ran(Empty(targets), steps);
    RunHistory(targets, steps[..n]);
    RunHistory(targets, steps);
    RunLater(Empty(targets), steps, n);
    RecordedThen(before, now, id);
  }

  lemma RecordedThen(before: Scripts, now: Scripts, id: nat)
    requires HistoryOk(before) && HistoryOk(now) && Later(before, now) && id in before.scripts
    ensures Recorded(now.audit, id, before.scripts[id].revision) == Some(before.scripts[id].content)
  {
    assert ScriptOk(before.audit, id, before.scripts[id]);
    RecordedLater(now.audit, |before.audit|, id, before.scripts[id].revision);
  }
}
