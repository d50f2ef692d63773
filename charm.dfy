/**
 * The temporal-admin charm: its event handlers and its action, acting on the
 * unit status, the stored database connections, the charm's application data
 * on the admin relations and the log of commands run in the workload container.
 */
module TemporalAdmin {
  import opened Wrappers
  import opened Tokens
  import opened SqlTool
  import opened Reconcile

  /** What the container reports for one command. */
  datatype CommandOutcome = Succeeded(output: string) | Failed(error: string)

  /** How an action ends: failed with a message, or with its results. */
  datatype ActionResult = ActionFailed(message: string) | ActionSucceeded(results: map<string, string>)

  const CannotConnectMessage := "cannot connect to container"
  const Tctl := "tctl"

  /** The answer the world gives to command number `index` of a reconcile pass. */
  function PassAnswer(failAt: Option<nat>, index: nat): CommandOutcome {
    if failAt == Some(index) then Failed("") else Succeeded("")
  }

  /** The command line of the `tctl` action for its `args` parameter. */
  function TctlArgv(args: string): (argv: seq<string>)
    ensures |argv| >= 1 && argv[0] == Tctl
    ensures forall i :: 1 <= i < |argv| ==> IsToken(argv[i])
    ensures Concat(argv[1..]) == NonSpace(args)
  {
    SplitKeepsText(args);
    Argv(Tctl, Split(args))
  }

  /**
   * The `tctl` command line breaks `args` at every whitespace run: the words
   * before and after a run of whitespace are passed on separately, in order.
   */
  lemma TctlArgvSeparated(a: string, ws: string, b: string)
    requires AllSpace(ws) && ws != []
    ensures TctlArgv(a + ws + b) == TctlArgv(a) + TctlArgv(b)[1..]
  {
    SplitSeparated(a, ws, b);
  }

  class Charm {
    var status: Status
    var connections: Option<seq<Entry>>
    var relationData: map<RelationId, DataBag>
    var commandLog: seq<seq<string>>

    function State(): CharmState
      reads this
    {
      CharmState(status, connections, relationData, commandLog)
    }

    /** A fresh charm: nothing stored (`set_default(database_connections=None)`), nothing run. */
    constructor (relationData: map<RelationId, DataBag>)
      ensures State() == CharmState(Unknown, None, relationData, [])
    {
      status := Unknown;
      connections := None;
      this.relationData := relationData;
      commandLog := [];
    }

    /** `execute`: runs `[command] + args` in the container, which answers `answer`. */
    method Execute(command: string, args: seq<string>, answer: CommandOutcome) returns (outcome: CommandOutcome)
      modifies this`commandLog
      ensures commandLog == old(commandLog) + [Argv(command, args)]
      ensures outcome == answer
    {
      commandLog := commandLog + [[command] + args];
      outcome := answer;
    }

    /** `_on_install`. */
    method Install()
      modifies this`status
      ensures status == Maintenance(InstallingMessage)
    {
      status := Maintenance(InstallingMessage);
    }

    /**
     * The loop of `_setup_db_schemas` over the stored connections: setup-schema
     * then update-schema per entry, the first failure or unknown key ending it.
     */
    method RunSchemaCommands(entries: seq<Entry>, failAt: Option<nat>) returns (failure: Option<Failure>)
      modifies this`commandLog
      ensures commandLog == old(commandLog) + Executed(Issued(entries), failAt)
      ensures failure == PassFailure(entries, failAt)
    {
      var i := 0;
      while i < |entries|
        invariant 0 <= i <= |entries|
        invariant AllKnown(entries[..i])
        invariant 2 * i <= |Issued(entries)|
        invariant commandLog == old(commandLog) + Issued(entries)[..2 * i]
        invariant failAt.None? || failAt.value >= 2 * i
      {
        var key, conn := entries[i].0, entries[i].1;
        var outcome := Execute(Tool, SetupSchemaArgs(conn), PassAnswer(failAt, 2 * i));
        if outcome.Failed? {
          PassFailsAtSetup(entries, i, failAt);
          return Some(CommandFailed(Argv(Tool, SetupSchemaArgs(conn))));
        }
        if key !in SchemaDirs {
          PassStopsAtUnknownKey(entries, i, failAt);
          return Some(UnknownSchemaKey(key));
        }
        outcome := Execute(Tool, UpdateSchemaArgs(conn, SchemaDirs[key]), PassAnswer(failAt, 2 * i + 1));
        if outcome.Failed? {
          PassFailsAtUpdate(entries, i, failAt);
          return Some(CommandFailed(Argv(Tool, UpdateSchemaArgs(conn, SchemaDirs[key]))));
        }
        PassStep(entries, i);
        i := i + 1;
      }
      assert entries[..i] == entries;
      PassCompletes(entries, failAt);
      return None;
    }

    /** The loop of `_setup_db_schemas` that tells every admin relation the schema is ready. */
    method NotifySchemaReady(admin: seq<RelationId>)
      modifies this`relationData
      ensures relationData == Publish(old(relationData), admin)
    {
      var j := 0;
      while j < |admin|
        invariant 0 <= j <= |admin|
        invariant relationData == Publish(old(relationData), admin[..j])
      {
        var id := admin[j];
        assert admin[..j + 1] == admin[..j] + [id];
        PublishOneMore(old(relationData), admin[..j], id);
        relationData := relationData[id := Bag(relationData, id)[SchemaStatusKey := SchemaReady]];
        j := j + 1;
      }
      assert admin[..j] == admin;
    }

    /** `_setup_db_schemas`. */
    method SetupDbSchemas(w: World) returns (r: HookResult)
      modifies this
      ensures (State(), r) == ReconcileSpec(old(State()), w)
    {
      if !w.isLeader {
        return Handled;
      }
      if !w.canConnect {
        return Deferred;
      }
      if connections == None || connections.value == [] {
        status := Blocked(NoConnectionsMessage);
        return Handled;
      }
      var failure := RunSchemaCommands(connections.value, w.failAt);
      if failure.Some? {
        return Raised(failure.value);
      }
      if w.adminRelations == [] {
        status := Blocked(NoAdminRelationMessage);
        return Handled;
      }
      NotifySchemaReady(w.adminRelations);
      status := Active("");
      return Handled;
    }

    /** `_on_temporal_admin_pebble_ready`. */
    method PebbleReady(w: World) returns (r: HookResult)
      modifies this
      ensures (State(), r) == ReconcileSpec(old(State()), w)
    {
      r := SetupDbSchemas(w);
    }

    /**
     * `_on_admin_relation_changed`: `field` is the remote application's
     * `database_connections` field and `decoded` its JSON decoding (None when
     * decoding raises).
     */
    method AdminRelationChanged(relationName: string, field: Option<string>, decoded: Option<seq<Entry>>, w: World)
      returns (r: HookResult)
      modifies this
      ensures (State(), r) == RelationChangedSpec(old(State()), relationName, field, decoded, w)
    {
      status := Waiting(WaitingMessage(relationName));
      if field.Some? && field.value != "" {
        if decoded.None? {
          return Raised(InvalidPayload);
        }
        connections := decoded;
      } else {
        connections := None;
      }
      r := SetupDbSchemas(w);
    }

    /** `_on_tctl_action`: the container answers `answer` when the command runs. */
    method TctlAction(args: string, canConnect: bool, answer: CommandOutcome) returns (r: ActionResult)
      modifies this`commandLog
      ensures !canConnect ==> r == ActionFailed(CannotConnectMessage) && commandLog == old(commandLog)
      ensures canConnect ==> commandLog == old(commandLog) + [TctlArgv(args)]
      ensures canConnect && answer.Failed? ==> r == ActionFailed("command failed: " + answer.error)
      ensures canConnect && answer.Succeeded?
              ==> r == ActionSucceeded(map["result" := "command succeeded", "output" := answer.output])
    {
      if !canConnect {
        return ActionFailed(CannotConnectMessage);
      }
      var argv := Split(args);
      var outcome := Execute(Tctl, argv, answer);
      if outcome.Failed? {
        return ActionFailed("command failed: " + outcome.error);
      }
      return ActionSucceeded(map["result" := "command succeeded", "output" := outcome.output]);
    }
  }
}
