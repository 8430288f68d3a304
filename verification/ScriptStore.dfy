// Builder scripts: the draft, the published source and the audit history that
// `ScriptCommand` keeps in step (internal/game/scripts.go), and the installation of
// bundled scripts (internal/game/content.go).
module ScriptStore {
  import opened Wrappers

  const MAX_SOURCE := 16384
  const AUTHOR_LIMIT := 100

  // The three tables a script can be attached to; older rows may hold other types.
  datatype Type = OnRoom | OnItem | OnNpc | Unsupported

  // `active`, `source` and `published` are the columns is_active, published_content and
  // published_revision; `revision` numbers the draft in `content`.
  datatype Script = Script(
    name: string, kind: Type, content: string, revision: nat,
    active: bool, source: Option<string>, published: Option<nat>, owner: Option<nat>)

  datatype Action =
    | Install | Create | Save | Publish | Disable | Attach(target: nat) | Detach(target: nat) | Restore

  // One row of script_audit. Only actions that write a draft record its content.
  datatype Entry = Entry(script: nat, actor: Option<nat>, action: Action, revision: nat, content: Option<string>)

  // `attached` holds script_id of every room, item and NPC.
  datatype Scripts = Scripts(scripts: map<nat, Script>, audit: seq<Entry>, attached: map<(Type, nat), Option<nat>>)

  datatype Account = Account(admin: bool, builder: bool)

  datatype Command =
    | Help | List
    | New(name: string, kind: Type)
    | On(id: nat, verb: Verb)

  datatype Verb =
    | ShowHistory | Show | Test
    | SaveDraft(content: string, revision: nat)
    | PublishDraft(revision: nat)
    | DisableScript
    | AttachTo(target: Option<nat>)
    | DetachFrom(target: Option<nat>)
    | RestoreRevision(revision: nat)
    | Unknown

  // What a command reads besides the tables: the actor's account if it is active, the
  // ID a new script would get, and whether the interpreter validates the draft.
  datatype Context = Context(actor: nat, account: Option<Account>, newId: nat, valid: bool)

  predicate ValidName(s: string) {
    && 1 <= |s| <= 40 && 'a' <= s[0] <= 'z'
    && forall i :: 0 <= i < |s| ==> 'a' <= s[i] <= 'z' || '0' <= s[i] <= '9' || s[i] in {'_', '-'}
  }

  function Hook(kind: Type): string {
    if kind == OnNpc then "on_talk" else if kind == OnItem then "on_use" else "on_enter"
  }

  function Template(kind: Type): string {
    "def " + Hook(kind) + "(event):\n    tell(\"Hello, \" + event.player.name + \"!\")\n"
  }

  function Authored(scripts: map<nat, Script>, actor: nat): set<nat> {
    set i | i in scripts && scripts[i].owner == Some(actor)
  }

  // The content recorded last for a revision of a script.
  function Recorded(audit: seq<Entry>, id: nat, revision: nat): Option<string> {
    if audit == [] then None
    else
      var e := audit[|audit| - 1];
      if e.script == id && e.revision == revision && e.content.Some? then e.content
      else Recorded(audit[..|audit| - 1], id, revision)
  }

  // What the interpreter would run for a room, item or NPC.
  function Running(db: Scripts, kind: Type, target: nat): Option<string> {
    if (kind, target) !in db.attached || db.attached[(kind, target)].None? then None
    else
      var id := db.attached[(kind, target)].value;
      if id in db.scripts && db.scripts[id].kind == kind && db.scripts[id].active then db.scripts[id].source else None
  }

  // ---------------------------------------------------------------- specification

  function Log(db: Scripts, id: nat, actor: Option<nat>, action: Action, content: Option<string>): Scripts
    requires id in db.scripts
  {
    db.(audit := db.audit + [Entry(id, actor, action, db.scripts[id].revision, content)])
  }

  // A new draft of a script, recorded under the next revision.
  function Draft(db: Scripts, id: nat, actor: Option<nat>, action: Action, content: string): Scripts
    requires id in db.scripts
  {
    var s := db.scripts[id];
    Log(db.(scripts := db.scripts[id := s.(content := content, revision := s.revision + 1)]), id, actor, action, Some(content))
  }

  function Created(db: Scripts, ctx: Context, name: string, kind: Type): Option<Scripts> {
    if !ValidName(name) || kind == Unsupported || |Authored(db.scripts, ctx.actor)| >= AUTHOR_LIMIT || ctx.newId in db.scripts then None
    else
      var s := Script(name, kind, Template(kind), 1, false, None, None, Some(ctx.actor));
      Some(Log(db.(scripts := db.scripts[ctx.newId := s]), ctx.newId, Some(ctx.actor), Create, Some(s.content)))
  }

  // What a command on an existing script leaves behind; None when it is refused.
  function Done(db: Scripts, ctx: Context, admin: bool, id: nat, verb: Verb): Option<Scripts>
    requires id in db.scripts
  {
    var s := db.scripts[id];
    var actor := Some(ctx.actor);
    match verb
    case ShowHistory => Some(db)
    case Show => Some(db)
    case Test => Some(db)
    case SaveDraft(content, revision) =>
      if |content| > MAX_SOURCE || revision != s.revision then None else Some(Draft(db, id, actor, Save, content))
    case RestoreRevision(revision) =>
      var recorded := Recorded(db.audit, id, revision);
      if recorded.None? then None else Some(Draft(db, id, actor, Restore, recorded.value))
    case PublishDraft(revision) =>
      if !admin || revision != s.revision || !ctx.valid then None
      else
        var t := s.(active := true, source := Some(s.content), published := Some(s.revision));
        Some(Log(db.(scripts := db.scripts[id := t]), id, actor, Publish, None))
    case DisableScript =>
      if !admin then None
      else Some(Log(db.(scripts := db.scripts[id := s.(active := false)]), id, actor, Disable, None))
    case AttachTo(target) =>
      if !admin || s.kind == Unsupported || target.None? || !s.active || (s.kind, target.value) !in db.attached then None
      else Some(Log(db.(attached := db.attached[(s.kind, target.value) := Some(id)]), id, actor, Attach(target.value), None))
    case DetachFrom(target) =>
      if !admin || s.kind == Unsupported || target.None? || (s.kind, target.value) !in db.attached
         || db.attached[(s.kind, target.value)] != Some(id) then None
      else Some(Log(db.(attached := db.attached[(s.kind, target.value) := None]), id, actor, Detach(target.value), None))
    case Unknown => None
  }

  predicate Permitted(account: Option<Account>) {
    account.Some? && (account.value.admin || account.value.builder)
  }

  predicate MayOpen(db: Scripts, ctx: Context, id: nat) {
    Permitted(ctx.account) && id in db.scripts && (ctx.account.value.admin || db.scripts[id].owner == Some(ctx.actor))
  }

  function Commanded(db: Scripts, ctx: Context, c: Command): Option<Scripts> {
    if !Permitted(ctx.account) then None
    else
      match c
      case Help => Some(db)
      case List => Some(db)
      case New(name, kind) => Created(db, ctx, name, kind)
      case On(id, verb) => if MayOpen(db, ctx, id) then Done(db, ctx, ctx.account.value.admin, id, verb) else None
  }

  // A bundled script is published as it is installed; one already present is left alone.
  function Bundled(db: Scripts, id: nat, name: string, source: string): Scripts {
    if id in db.scripts then db
    else
      var s := Script(name, OnRoom, source, 1, true, Some(source), Some(1), None);
      Log(db.(scripts := db.scripts[id := s]), id, None, Install, Some(source))
  }

  // ---------------------------------------------------------------- the commands as they run

  class Store {
    var scripts: map<nat, Script>
    var audit: seq<Entry>
    var attached: map<(Type, nat), Option<nat>>

    constructor (attached: map<(Type, nat), Option<nat>>)
      ensures View() == Scripts(map[], [], attached)
    {
      this.scripts, this.audit, this.attached := map[], [], attached;
    }

    function View(): Scripts
      reads this
    {
      Scripts(scripts, audit, attached)
    }

    method InstallBundled(id: nat, name: string, source: string)
      modifies this
      ensures View() == Bundled(old(View()), id, name, source)
    {
      if id in scripts {
        return;
      }
      scripts := scripts[id := Script(name, OnRoom, source, 1, true, Some(source), Some(1), None)];
      audit := audit + [Entry(id, None, Install, 1, Some(source))];
    }

    // One builder command in its own transaction: it either succeeds or changes nothing.
    method ScriptCommand(ctx: Context, c: Command) returns (ok: bool)
      modifies this
      ensures ok <==> Commanded(old(View()), ctx, c).Some?
      ensures View() == if ok then Commanded(old(View()), ctx, c).value else old(View())
    {
      if ctx.account.None? || !(ctx.account.value.admin || ctx.account.value.builder) {
        return false;
      }
      var admin := ctx.account.value.admin;
      match c {
        case Help => return true;
        case List => return true;
        case New(name, kind) => ok := Make(ctx, name, kind);
        case On(id, verb) =>
          if id !in scripts || (!admin && scripts[id].owner != Some(ctx.actor)) {
            return false;
          }
          ok := Perform(ctx, admin, id, verb);
      }
    }

    method Make(ctx: Context, name: string, kind: Type) returns (ok: bool)
      modifies this
      ensures ok <==> Created(old(View()), ctx, name, kind).Some?
      ensures View() == if ok then Created(old(View()), ctx, name, kind).value else old(View())
    {
      hide ValidName, Template;
      if !ValidName(name) || kind == Unsupported {
        return false;
      }
      var count := Count(ctx.actor);
      if count >= AUTHOR_LIMIT || ctx.newId in scripts {
        return false;
      }
      var content := Template(kind);
      scripts := scripts[ctx.newId := Script(name, kind, content, 1, false, None, None, Some(ctx.actor))];
      audit := audit + [Entry(ctx.newId, Some(ctx.actor), Create, 1, Some(content))];
      return true;
    }

    method Count(actor: nat) returns (n: nat)
      ensures n == |Authored(scripts, actor)|
    {
      var todo := scripts.Keys;
      ghost var counted: set<nat> := {};
      n := 0;
      while todo != {}
        invariant todo <= scripts.Keys && n == |counted|
        invariant counted == set i | i in scripts && i !in todo && scripts[i].owner == Some(actor)
        decreases todo
      {
        var i :| i in todo;
        todo := todo - {i};
        if scripts[i].owner == Some(actor) {
          n := n + 1;
          counted := counted + {i};
        }
      }
      assert counted == Authored(scripts, actor);
    }

    method FindRevision(id: nat, revision: nat) returns (content: Option<string>)
      ensures content == Recorded(audit, id, revision)
    {
      var i := |audit|;
      assert audit[..i] == audit;
      while i > 0
        invariant 0 <= i <= |audit| && Recorded(audit[..i], id, revision) == Recorded(audit, id, revision)
      {
        i := i - 1;
        assert audit[..i + 1][..i] == audit[..i];
        if audit[i].script == id && audit[i].revision == revision && audit[i].content.Some? {
          return audit[i].content;
        }
      }
      return None;
    }

    method Perform(ctx: Context, admin: bool, id: nat, verb: Verb) returns (ok: bool)
      requires id in scripts
      modifies this
      ensures ok <==> Done(old(View()), ctx, admin, id, verb).Some?
      ensures View() == if ok then Done(old(View()), ctx, admin, id, verb).value else old(View())
    {
      hide Recorded;
      var s := scripts[id];
      var action;
      var recorded := None;
      match verb {
        case ShowHistory => return true;
        case Show => return true;
        case Test => return true;
        case SaveDraft(content, revision) =>
          if |content| > MAX_SOURCE || revision != s.revision {
            return false;
          }
          s := s.(content := content, revision := s.revision + 1);
          action, recorded := Save, Some(content);
        case PublishDraft(revision) =>
          if !admin || revision != s.revision || !ctx.valid {
            return false;
          }
          s := s.(source := Some(s.content), published := Some(s.revision), active := true);
          action := Publish;
        case DisableScript =>
          if !admin {
            return false;
          }
          s := s.(active := false);
          action := Disable;
        case AttachTo(target) =>
          if !admin || s.kind == Unsupported || target.None? || !s.active || (s.kind, target.value) !in attached {
            return false;
          }
          attached := attached[(s.kind, target.value) := Some(id)];
          action := Attach(target.value);
        case DetachFrom(target) =>
          if !admin || s.kind == Unsupported || target.None? || (s.kind, target.value) !in attached
             || attached[(s.kind, target.value)] != Some(id) {
            return false;
          }
          attached := attached[(s.kind, target.value) := None];
          action := Detach(target.value);
        case RestoreRevision(revision) =>
          var content := FindRevision(id, revision);
          if content.None? {
            return false;
          }
          s := s.(content := content.value, revision := s.revision + 1);
          action, recorded := Restore, content;
        case Unknown => return false;
      }
      scripts := scripts[id := s];
      audit := audit + [Entry(id, Some(ctx.actor), action, s.revision, recorded)];
      assert verb.AttachTo? || verb.DetachFrom? ==> scripts == old(scripts);
      return true;
    }
  }
}
