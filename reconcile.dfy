/**
 * The charm's reconcile procedure and relation-changed handler as functions of
 * the charm's state and of the outside world, with the properties the charm
 * promises about them. The class in module TemporalAdmin is proved to follow
 * these functions step by step.
 */
module Reconcile {
  import opened Wrappers
  import opened SqlTool

  type RelationId = int
  /** One `(key, connection)` item of the stored connections, in dictionary order. */
  type Entry = (string, Conn)
  /** An application data bag of a relation. */
  type DataBag = map<string, string>

  /** The unit's workload status; `Active` carries the empty message the charm uses. */
  datatype Status =
    | Unknown
    | Maintenance(message: string)
    | Waiting(message: string)
    | Blocked(message: string)
    | Active(message: string)

  const InstallingMessage := "installing temporal admin tools"
  const NoConnectionsMessage := "admin:temporal relation: database connections info not available"
  const NoAdminRelationMessage := "admin:temporal relation: not available"
  const SchemaStatusKey := "schema_status"
  const SchemaReady := "ready"

  function WaitingMessage(relationName: string): string {
    "handling " + relationName + " change"
  }

  /** Why a handler raised: a command failed, a key has no schema directory, or the payload is not JSON. */
  datatype Failure = CommandFailed(argv: seq<string>) | UnknownSchemaKey(key: string) | InvalidPayload

  /** How the handling of one event ends. */
  datatype HookResult = Handled | Deferred | Raised(failure: Failure)

  /**
   * What the charm observes of the world during one event: leadership, whether
   * the workload container answers, the admin relations, and which command of
   * the pass (counted from 0), if any, fails.
   */
  datatype World = World(isLeader: bool, canConnect: bool, adminRelations: seq<RelationId>, failAt: Option<nat>)

  /** The observable state of the charm. */
  datatype CharmState = CharmState(
    status: Status,
    connections: Option<seq<Entry>>,
    relationData: map<RelationId, DataBag>,
    commandLog: seq<seq<string>>)

  function SetupCommand(c: Conn): seq<string> {
    Argv(Tool, SetupSchemaArgs(c))
  }

  function UpdateCommand(key: string, c: Conn): seq<string>
    requires key in SchemaDirs
  {
    Argv(Tool, UpdateSchemaArgs(c, SchemaDirs[key]))
  }

  predicate AllKnown(entries: seq<Entry>) {
    forall e :: e in entries ==> e.0 in SchemaDirs
  }

  /**
   * The commands one pass issues over `entries` when none of them fails:
   * setup then update per entry, stopping right after the setup of the first
   * entry whose key has no schema directory.
   */
  function Issued(entries: seq<Entry>): seq<seq<string>> {
    if entries == [] then []
    else
      var (key, c) := entries[0];
      if key in SchemaDirs then [SetupCommand(c), UpdateCommand(key, c)] + Issued(entries[1..])
      else [SetupCommand(c)]
  }

  /** The first key, in entry order, that has no schema directory. */
  function FirstUnknownKey(entries: seq<Entry>): Option<string> {
    if entries == [] then None
    else if entries[0].0 !in SchemaDirs then Some(entries[0].0)
    else FirstUnknownKey(entries[1..])
  }

  /** The reported key is unknown, and there is one exactly when some key is unknown. */
  lemma {:induction false} FirstUnknownKeySpec(entries: seq<Entry>)
    ensures FirstUnknownKey(entries).None? <==> AllKnown(entries)
    ensures FirstUnknownKey(entries).Some? ==> FirstUnknownKey(entries).value !in SchemaDirs
  {
    if entries != [] {
      assert forall e :: e in entries <==> e == entries[0] || e in entries[1..];
      FirstUnknownKeySpec(entries[1..]);
    }
  }

  /**
   * A pass issues at most two commands per entry, and fewer exactly when it
   * stopped at an unknown key.
   */
  lemma {:induction false} IssuedShape(entries: seq<Entry>)
    ensures |Issued(entries)| <= 2 * |entries|
    ensures |Issued(entries)| < 2 * |entries| <==> FirstUnknownKey(entries).Some?
  {
    if entries != [] && entries[0].0 in SchemaDirs {
      IssuedShape(entries[1..]);
    }
  }

  /** The commands that actually run: up to and including the failing one, if any fails. */
  function Executed(cmds: seq<seq<string>>, failAt: Option<nat>): seq<seq<string>> {
    if failAt.Some? && failAt.value < |cmds| then cmds[..failAt.value + 1] else cmds
  }

  /** The exception a pass over `entries` ends with, if any. */
  function PassFailure(entries: seq<Entry>, failAt: Option<nat>): Option<Failure>
  {
    var cmds := Issued(entries);
    if failAt.Some? && failAt.value < |cmds| then Some(CommandFailed(cmds[failAt.value]))
    else
      match FirstUnknownKey(entries)
      case Some(key) => Some(UnknownSchemaKey(key))
      case None => None
  }

  /**
   * What the exception of a pass says: a failing command is the last one run;
   * a key error names an unknown key and comes after every issued command ran;
   * a pass that raises nothing had every key known and ran every command.
   */
  lemma PassFailureSpec(entries: seq<Entry>, failAt: Option<nat>)
    ensures var r, ran := PassFailure(entries, failAt), Executed(Issued(entries), failAt);
      && (r.Some? && r.value.CommandFailed? ==> |ran| > 0 && r.value.argv == ran[|ran| - 1])
      && (r.Some? && r.value.UnknownSchemaKey? ==> r.value.key !in SchemaDirs && ran == Issued(entries))
      && (r.None? ==> AllKnown(entries) && ran == Issued(entries))
      && r != Some(InvalidPayload)
  {
    FirstUnknownKeySpec(entries);
  }

  /** The charm's application data bag on relation `id`; a relation never written has an empty one. */
  function Bag(data: map<RelationId, DataBag>, id: RelationId): DataBag {
    if id in data then data[id] else map[]
  }

  /** `schema_status = ready` merged into the bag of each relation in `ids`; other bags kept. */
  function Publish(data: map<RelationId, DataBag>, ids: seq<RelationId>): (r: map<RelationId, DataBag>)
    ensures r.Keys == data.Keys + (set id | id in ids)
    ensures forall id :: id in ids ==> r[id] == Bag(data, id)[SchemaStatusKey := SchemaReady]
    ensures forall id :: id in data && id !in ids ==> r[id] == data[id]
  {
    map id | id in data.Keys + (set id | id in ids) ::
      if id in ids then Bag(data, id)[SchemaStatusKey := SchemaReady] else data[id]
  }

  /**
   * Publishing to one more relation is one more merge of `schema_status = ready`;
   * merging it twice into the same bag changes nothing.
   */
  lemma PublishOneMore(data: map<RelationId, DataBag>, ids: seq<RelationId>, id: RelationId)
    ensures Publish(data, ids + [id])
         == Publish(data, ids)[id := Bag(Publish(data, ids), id)[SchemaStatusKey := SchemaReady]]
  {
    var lhs := Publish(data, ids + [id]);
    var p := Publish(data, ids);
    var rhs := p[id := Bag(p, id)[SchemaStatusKey := SchemaReady]];
    assert forall x :: x in ids + [id] <==> x in ids || x == id;
    assert lhs.Keys == rhs.Keys;
    forall x | x in lhs.Keys
      ensures lhs[x] == rhs[x]
    {
      if x == id && id in ids {
        assert Bag(p, id) == Bag(data, id)[SchemaStatusKey := SchemaReady];
      }
    }
  }

  /** `_setup_db_schemas`: the new state and how the event ends. */
  function ReconcileSpec(s: CharmState, w: World): (r: (CharmState, HookResult))
    ensures !w.isLeader ==> r == (s, Handled)
    ensures w.isLeader && !w.canConnect ==> r == (s, Deferred)
    ensures w.isLeader && w.canConnect && (s.connections == None || s.connections == Some([]))
            ==> r == (s.(status := Blocked(NoConnectionsMessage)), Handled)
    ensures r.0.connections == s.connections
    ensures |s.commandLog| <= |r.0.commandLog| && r.0.commandLog[..|s.commandLog|] == s.commandLog
    ensures r.1.Raised? ==> r.0.status == s.status && r.0.relationData == s.relationData
    ensures r.0.relationData != s.relationData ==> r.0.status == Active("")
  {
    if !w.isLeader then (s, Handled)
    else if !w.canConnect then (s, Deferred)
    else if s.connections == None || s.connections.value == [] then
      (s.(status := Blocked(NoConnectionsMessage)), Handled)
    else
      var entries := s.connections.value;
      var s' := s.(commandLog := s.commandLog + Executed(Issued(entries), w.failAt));
      match PassFailure(entries, w.failAt)
      case Some(f) => (s', Raised(f))
      case None =>
        if w.adminRelations == [] then (s'.(status := Blocked(NoAdminRelationMessage)), Handled)
        else (s'.(relationData := Publish(s.relationData, w.adminRelations), status := Active("")), Handled)
  }

  /**
   * `_on_admin_relation_changed`: `field` is the remote application's
   * `database_connections` field, `decoded` its JSON decoding (None when the
   * decoder raises).
   */
  function RelationChangedSpec(
    s: CharmState, relationName: string, field: Option<string>, decoded: Option<seq<Entry>>, w: World
  ): (r: (CharmState, HookResult))
    ensures field.Some? && field.value != "" && decoded.None?
            ==> r == (s.(status := Waiting(WaitingMessage(relationName))), Raised(InvalidPayload))
    ensures field.Some? && field.value != "" && decoded.Some? ==> r.0.connections == decoded
    ensures (field.None? || field.value == "") ==> r.0.connections == None
    ensures field.Some? && field.value != "" && decoded.Some?
            ==> r == ReconcileSpec(s.(status := Waiting(WaitingMessage(relationName)), connections := decoded), w)
    ensures (field.None? || field.value == "")
            ==> r == ReconcileSpec(s.(status := Waiting(WaitingMessage(relationName)), connections := None), w)
    ensures (!w.isLeader || r.1 == Deferred || r.1.Raised?) ==> r.0.status == Waiting(WaitingMessage(relationName))
  {
    var waiting := s.(status := Waiting(WaitingMessage(relationName)));
    if field.Some? && field.value != "" then
      match decoded
      case None => (waiting, Raised(InvalidPayload))
      case Some(entries) => ReconcileSpec(waiting.(connections := Some(entries)), w)
    else
      ReconcileSpec(waiting.(connections := None), w)
  }

  /**
   * The commands of a pass, entry by entry: while the keys before entry `i`
   * have schema directories, entry `i`'s setup-schema is command 2i, followed
   * by its update-schema exactly when its key has a directory; otherwise the
   * pass stops there and `i`'s key is the one reported.
   */
  lemma {:induction false} IssuedAt(entries: seq<Entry>, i: nat)
    requires i < |entries|
    requires AllKnown(entries[..i])
    ensures |Issued(entries)| > 2 * i
    ensures Issued(entries)[2 * i] == SetupCommand(entries[i].1)
    ensures entries[i].0 in SchemaDirs
            ==> |Issued(entries)| > 2 * i + 1 && Issued(entries)[2 * i + 1] == UpdateCommand(entries[i].0, entries[i].1)
    ensures entries[i].0 !in SchemaDirs
            ==> |Issued(entries)| == 2 * i + 1 && FirstUnknownKey(entries) == Some(entries[i].0)
  {
    if i > 0 {
      assert entries[..i][0] == entries[0];
      var tail := entries[1..];
      assert tail[..i - 1] == entries[1..i];
      assert tail[..i - 1] == entries[..i][1..];
      IssuedAt(tail, i - 1);
      assert tail[i - 1] == entries[i];
    }
  }

  /** Where a pass stops when the setup-schema of entry `i` fails. */
  lemma PassFailsAtSetup(entries: seq<Entry>, i: nat, failAt: Option<nat>)
    requires i < |entries| && AllKnown(entries[..i]) && failAt == Some(2 * i)
    ensures |Issued(entries)| > 2 * i
    ensures Executed(Issued(entries), failAt) == Issued(entries)[..2 * i] + [SetupCommand(entries[i].1)]
    ensures PassFailure(entries, failAt) == Some(CommandFailed(SetupCommand(entries[i].1)))
  {
    IssuedAt(entries, i);
    assert Issued(entries)[..2 * i + 1] == Issued(entries)[..2 * i] + [Issued(entries)[2 * i]];
  }

  /** Where a pass stops when the update-schema of entry `i` fails. */
  lemma PassFailsAtUpdate(entries: seq<Entry>, i: nat, failAt: Option<nat>)
    requires i < |entries| && AllKnown(entries[..i]) && entries[i].0 in SchemaDirs && failAt == Some(2 * i + 1)
    ensures |Issued(entries)| > 2 * i + 1
    ensures Executed(Issued(entries), failAt)
         == Issued(entries)[..2 * i] + [SetupCommand(entries[i].1), UpdateCommand(entries[i].0, entries[i].1)]
    ensures PassFailure(entries, failAt) == Some(CommandFailed(UpdateCommand(entries[i].0, entries[i].1)))
  {
    IssuedAt(entries, i);
    var cmds := Issued(entries);
    assert cmds[..2 * i + 2] == cmds[..2 * i] + [cmds[2 * i], cmds[2 * i + 1]];
  }

  /** Where a pass stops when entry `i` has no schema directory and its setup-schema succeeded. */
  lemma PassStopsAtUnknownKey(entries: seq<Entry>, i: nat, failAt: Option<nat>)
    requires i < |entries| && AllKnown(entries[..i]) && entries[i].0 !in SchemaDirs
    requires failAt.None? || failAt.value > 2 * i
    ensures |Issued(entries)| == 2 * i + 1
    ensures Executed(Issued(entries), failAt) == Issued(entries)[..2 * i] + [SetupCommand(entries[i].1)]
    ensures PassFailure(entries, failAt) == Some(UnknownSchemaKey(entries[i].0))
  {
    IssuedAt(entries, i);
    var cmds := Issued(entries);
    assert cmds == cmds[..2 * i] + [cmds[2 * i]];
  }

  /** Entry `i` done, its setup-schema and update-schema extend the commands run so far. */
  lemma PassStep(entries: seq<Entry>, i: nat)
    requires i < |entries| && AllKnown(entries[..i]) && entries[i].0 in SchemaDirs
    ensures AllKnown(entries[..i + 1])
    ensures |Issued(entries)| >= 2 * i + 2
    ensures Issued(entries)[..2 * i + 2]
         == Issued(entries)[..2 * i] + [SetupCommand(entries[i].1), UpdateCommand(entries[i].0, entries[i].1)]
  {
    IssuedAt(entries, i);
    var cmds := Issued(entries);
    assert cmds[..2 * i + 2] == cmds[..2 * i] + [cmds[2 * i], cmds[2 * i + 1]];
    assert entries[..i + 1] == entries[..i] + [entries[i]];
  }

  /** A pass in which every key is known and no command fails runs everything and raises nothing. */
  lemma PassCompletes(entries: seq<Entry>, failAt: Option<nat>)
    requires AllKnown(entries) && (failAt.None? || failAt.value >= 2 * |entries|)
    ensures |Issued(entries)| == 2 * |entries|
    ensures Issued(entries)[..2 * |entries|] == Issued(entries)
    ensures Executed(Issued(entries), failAt) == Issued(entries)
    ensures PassFailure(entries, failAt) == None
  {
    IssuedAllKnown(entries);
  }

  /** With every key known and no failure, a pass issues exactly two commands per entry. */
  lemma {:induction false} IssuedAllKnown(entries: seq<Entry>)
    requires AllKnown(entries)
    ensures |Issued(entries)| == 2 * |entries|
    ensures FirstUnknownKey(entries) == None
  {
    if entries != [] {
      var tail := entries[1..];
      IssuedAllKnown(tail);
    }
  }

  /**
   * Happy path: the log grows by exactly 2n commands, entry i contributing
   * its setup-schema at 2i and its update-schema at 2i+1; then the unit is
   * Blocked when there is no admin relation, and otherwise every admin
   * relation is told the schema is ready and the unit becomes Active.
   */
  lemma ReconcileCompletes(s: CharmState, w: World)
    requires w.isLeader && w.canConnect
    requires s.connections.Some? && s.connections.value != []
    requires AllKnown(s.connections.value)
    requires w.failAt.None? || w.failAt.value >= 2 * |s.connections.value|
    ensures var entries, r := s.connections.value, ReconcileSpec(s, w);
      && r.1 == Handled
      && |r.0.commandLog| == |s.commandLog| + 2 * |entries|
      && r.0.commandLog[..|s.commandLog|] == s.commandLog
      && (forall i :: 0 <= i < |entries| ==>
            r.0.commandLog[|s.commandLog| + 2 * i] == SetupCommand(entries[i].1)
            && r.0.commandLog[|s.commandLog| + 2 * i + 1] == UpdateCommand(entries[i].0, entries[i].1))
      && (w.adminRelations == [] ==> r.0.status == Blocked(NoAdminRelationMessage) && r.0.relationData == s.relationData)
      && (w.adminRelations != [] ==> r.0.status == Active("") && r.0.relationData == Publish(s.relationData, w.adminRelations))
  {
    var entries := s.connections.value;
    IssuedAllKnown(entries);
    forall i | 0 <= i < |entries|
      ensures Issued(entries)[2 * i] == SetupCommand(entries[i].1)
      ensures Issued(entries)[2 * i + 1] == UpdateCommand(entries[i].0, entries[i].1)
    {
      assert forall e :: e in entries[..i] ==> e in entries;
      IssuedAt(entries, i);
    }
  }

  /**
   * The admin relation bringing a non-empty list of connections with known
   * keys, on a leader whose container answers every command: the connections
   * are stored, each entry's setup-schema and update-schema run in order, and
   * the unit ends Blocked without admin relations or Active with the schema
   * announced on each of them.
   */
  lemma RelationChangedCompletes(
    s: CharmState, relationName: string, payload: string, entries: seq<Entry>, w: World)
    requires payload != "" && entries != [] && AllKnown(entries)
    requires w.isLeader && w.canConnect && (w.failAt.None? || w.failAt.value >= 2 * |entries|)
    ensures var r := RelationChangedSpec(s, relationName, Some(payload), Some(entries), w);
      && r.1 == Handled
      && r.0.connections == Some(entries)
      && |r.0.commandLog| == |s.commandLog| + 2 * |entries|
      && r.0.commandLog[..|s.commandLog|] == s.commandLog
      && (forall i :: 0 <= i < |entries| ==>
            r.0.commandLog[|s.commandLog| + 2 * i] == SetupCommand(entries[i].1)
            && r.0.commandLog[|s.commandLog| + 2 * i + 1] == UpdateCommand(entries[i].0, entries[i].1))
      && (w.adminRelations == [] ==> r.0.status == Blocked(NoAdminRelationMessage) && r.0.relationData == s.relationData)
      && (w.adminRelations != [] ==> r.0.status == Active("") && r.0.relationData == Publish(s.relationData, w.adminRelations))
  {
    ReconcileCompletes(s.(status := Waiting(WaitingMessage(relationName)), connections := Some(entries)), w);
  }

  /**
   * A failing command ends the pass: it is the last command logged, the
   * exception names it, and neither the status nor any relation data changes.
   */
  lemma ReconcileCommandFails(s: CharmState, w: World)
    requires w.isLeader && w.canConnect
    requires s.connections.Some? && s.connections.value != []
    requires w.failAt.Some? && w.failAt.value < |Issued(s.connections.value)|
    ensures var cmds, k, r := Issued(s.connections.value), w.failAt.value, ReconcileSpec(s, w);
      && r.1 == Raised(CommandFailed(cmds[k]))
      && r.0.commandLog == s.commandLog + cmds[..k + 1]
      && r.0.status == s.status
      && r.0.relationData == s.relationData
  {
  }

  /**
   * A key without a schema directory aborts the pass right after that entry's
   * setup-schema ran, with nothing published and the status untouched.
   */
  lemma ReconcileUnknownKey(s: CharmState, w: World, i: nat)
    requires w.isLeader && w.canConnect && (w.failAt.None? || w.failAt.value > 2 * i)
    requires s.connections.Some? && i < |s.connections.value|
    requires AllKnown(s.connections.value[..i]) && s.connections.value[i].0 !in SchemaDirs
    ensures var entries, r := s.connections.value, ReconcileSpec(s, w);
      && r.1 == Raised(UnknownSchemaKey(entries[i].0))
      && |r.0.commandLog| == |s.commandLog| + 2 * i + 1
      && r.0.commandLog == s.commandLog + Issued(entries)
      && r.0.commandLog[|s.commandLog| + 2 * i] == SetupCommand(entries[i].1)
      && r.0.status == s.status
      && r.0.relationData == s.relationData
  {
    PassStopsAtUnknownKey(s.connections.value, i, w.failAt);
    var cmds := Issued(s.connections.value);
    assert cmds == cmds[..2 * i] + [cmds[2 * i]];
  }

  /**
   * The lifecycle the charm's unit tests simulate, on a fresh leader unit whose
   * container answers: workload ready without connections blocks and runs
   * nothing; the admin relation then brings two databases, and four commands
   * run, the unit ending Active with the schema announced, or Blocked when no
   * admin relation is left to tell.
   */
  const LifecycleEntries: seq<Entry> :=
    [("db", Conn("myhost", "4247", "temporal-k8s_db", "jean-luc@db", "inner-light")),
     ("visibility", Conn("myhost", "4247", "temporal-k8s_visibility", "jean-luc@visibility", "inner-light"))]

  lemma SimulatedLifecycle(admin: seq<RelationId>, payload: string)
    requires payload != ""
    ensures var w := World(true, true, admin, None);
      var entries := LifecycleEntries;
      var (s1, r1) := ReconcileSpec(CharmState(Unknown, None, map[], []), w);
      var (s2, r2) := RelationChangedSpec(s1, "admin", Some(payload), Some(entries), w);
      && s1.status == Blocked(NoConnectionsMessage) && s1.commandLog == [] && r1 == Handled
      && r2 == Handled && |s2.commandLog| == 4
      && (admin == [] ==> s2.status == Blocked(NoAdminRelationMessage))
      && (admin != [] ==> s2.status == Active("")
                          && forall id :: id in admin ==> s2.relationData[id] == map[SchemaStatusKey := SchemaReady])
  {
    var w := World(true, true, admin, None);
    var entries := LifecycleEntries;
    var s1 := ReconcileSpec(CharmState(Unknown, None, map[], []), w).0;
    var s := s1.(status := Waiting(WaitingMessage("admin")), connections := Some(entries));
    assert forall e :: e in entries ==> e.0 in SchemaDirs;
    ReconcileCompletes(s, w);
  }
}
