# temporal-admin charm: a Dafny model of its event handling

This project models the event handling of the temporal-admin Kubernetes charm
(`src/charm.py`). The charm prepares the PostgreSQL schemas of a Temporal
deployment. It reacts to four triggers:

- **install** sets a Maintenance status;
- **workload (pebble) ready** runs the reconcile procedure;
- **admin relation changed** sets a Waiting status, replaces the stored database
  connections wholesale with the relation's payload, and then runs the reconcile
  procedure;
- the **`tctl` action** runs `tctl` in the workload container with the
  whitespace-split `args` parameter.

The reconcile procedure (`_setup_db_schemas`) runs these steps in order:

1. A non-leader unit does nothing.
2. If the container cannot be reached, the event is deferred.
3. If no connections are stored, the unit is Blocked.
4. For each stored `(key, connection)` entry, in dictionary order, it runs
   `temporal-sql-tool … setup-schema -v 0.0` and then
   `temporal-sql-tool … update-schema -d <schema_dirs[key]>`.
5. If there is no admin relation, the unit is Blocked.
6. Otherwise it writes `schema_status = ready` to the charm's application data
   on every admin relation and sets the unit Active.

`_setup_db_schemas` has no exception handling. A failing command, or a key
missing from the schema-directory table, propagates out of the handler and
ends the pass where it stands. The `tctl` action is different: it catches any
exception from the command (src/charm.py:84-88) and reports it as an action
failure.

Files:

- `wrappers.dfy`: `Option`.
- `tokens.dfy` (module `Tokens`): Python's `str.split()`, and what it keeps and drops.
- `sql_tool.dfy` (module `SqlTool`): the connection record, the `schema_dirs`
  table, the `temporal-sql-tool` argument lists, and a reader of such command
  lines. The reader is used to prove that each argument list carries exactly
  the connection's values under the right options.
- `reconcile.dfy` (module `Reconcile`): the charm state as a value, and the
  reconcile procedure and the relation-changed handler as functions of that
  state and of the outside world (`World`: leadership, container
  connectivity, the admin relations, and which command of the pass fails).
  It also holds the lemmas about them.
- `charm.dfy` (module `TemporalAdmin`): class `Charm`, whose fields are the unit
  status, the stored connections, the charm's data bag per relation, and the
  log of commands run in the container. `SetupDbSchemas`, `PebbleReady` and
  `AdminRelationChanged` are proved to produce exactly the state and outcome
  given by `ReconcileSpec` and `RelationChangedSpec`. The other methods
  (`Install`, `Execute`, `TctlAction`, and the two loops `RunSchemaCommands`
  and `NotifySchemaReady`) state their new state directly, or through
  `Issued`, `PassFailure` and `Publish`.

The outside world is given to the model as parameters:

- leadership;
- `container.can_connect()`;
- `self.model.relations["admin"]`;
- the decoded relation payload;
- the container's answer to each command.

How an event ends is a `HookResult`: `Handled`, `Deferred` (`event.defer()`),
or `Raised` (the uncaught exception).

Some facts about `src/charm.py` that shape the model:

- the only stored state is `database_connections`; there is no peer relation
  and no readiness gate;
- every reconcile pass runs both schema commands for every entry; nothing
  skips a schema that is already set up;
- the `temporal-sql-tool` command lines carry no TLS options;
- there is no relation-broken handler and no `setup-schema` action;
- a failing schema command is an uncaught exception, and the unit status keeps
  the value it had before the pass (for example the Waiting status set by the
  relation-changed handler);
- `tctl` is run with the user's arguments only, with no server address
  option.

## Model

| member | source | states |
|---|---|---|
| `Tokens.Split` | src/charm.py:83 | every token of `args.split()` is non-empty and free of whitespace |
| `Tokens.SplitAllSpace` | src/charm.py:83 | a string made only of whitespace, the empty string included, splits into no tokens |
| `Tokens.SplitLeadingSpace` | src/charm.py:83 | leading whitespace does not change the split |
| `Tokens.SplitToken` | src/charm.py:83 | a non-empty whitespace-free string splits into itself alone |
| `Tokens.SplitSeparated` | src/charm.py:83 | a run of one or more whitespace characters is a token boundary: splitting `a + ws + b` gives the tokens of `a` followed by the tokens of `b`; with `SplitAllSpace` and `SplitToken` this determines `Split` on every string |
| `Tokens.SplitKeepsText` | src/charm.py:83 | splitting drops only whitespace: the tokens concatenated are the non-whitespace characters of `args`, in order |
| `Tokens.SplitJoin` | src/charm.py:83 | splitting inverts joining with single spaces, for any list of whitespace-free non-empty tokens |
| `Tokens.TokenLength` | src/charm.py:83 | a token extends to the next whitespace character or to the end of the string |
| `SqlTool.SchemaDirsTable` | src/charm.py:106-109 | `schema_dirs` has exactly the keys `db` and `visibility`, and they name different schema directories |
| `SqlTool.ReadConnectionFlags` | src/charm.py:114-126 | the shared option block built by `ConnectionFlags` yields exactly plugin `postgres` and the connection's host, port, dbname, user and password, and stops at the subcommand |
| `SqlTool.ParseSetupSchema` | src/charm.py:112-130 | the setup-schema command line built by `SetupSchemaArgs` is read as `setup-schema` at version `0.0` on the entry's host, port, dbname, user and password with the postgres plugin |
| `SqlTool.ParseUpdateSchema` | src/charm.py:131-149 | the update-schema command line built by `UpdateSchemaArgs` is read as `update-schema` with the given directory on the entry's host, port, dbname, user and password with the postgres plugin |
| `Reconcile.ReconcileSpec` | src/charm.py:92-163 | a non-leader changes nothing; a leader whose container cannot connect defers with nothing changed; no or empty connections give Blocked("admin:temporal relation: database connections info not available") and run nothing; connections are never touched; the log only grows; a raised pass leaves status and relation data as they were; relation data changes only on the way to Active |
| `Reconcile.RelationChangedSpec` | src/charm.py:62-72 | stored connections become the decoded payload when the field is a non-empty string and None otherwise; an undecodable payload raises with only the Waiting status set; whenever the pass does not finish (non-leader, deferred, raised) the status stays Waiting("handling <relation> change"); after a decoded or absent payload, the result is exactly the reconcile procedure (`ReconcileSpec`) run on the Waiting state with the replaced connections |
| `Reconcile.RelationChangedCompletes` | src/charm.py:62-72 | a payload with non-empty connections whose keys are all known, on a leader whose container answers: the connections are stored, entry i's setup-schema and update-schema are commands 2i and 2i+1 of the new log, and the unit ends Blocked("admin:temporal relation: not available") with no data written or Active with `schema_status = ready` published on every admin relation |
| `Reconcile.Publish` | src/charm.py:159-161 | each admin relation's bag gains `schema_status = ready` with its other keys kept; other relations' bags are untouched |
| `Reconcile.PublishOneMore` | src/charm.py:159-161 | publishing relation by relation in a loop equals publishing to the whole list, repeated relations included |
| `Reconcile.FirstUnknownKeySpec` | src/charm.py:106-149 | the pass meets no unknown key exactly when every stored key is in `schema_dirs`; a reported key is never in `schema_dirs` |
| `Reconcile.IssuedShape` | src/charm.py:110-149 | the commands `Issued` by a pass are at most two per entry, and fewer exactly when some key is unknown |
| `Reconcile.PassFailureSpec` | src/charm.py:110-149 | the exception `PassFailure` reports: a failed command is the last one run; an unknown key is not in `schema_dirs` and the pass ran all it issues; no exception means every key is known and the whole pass ran; never an invalid-payload error |
| `Reconcile.IssuedAt` | src/charm.py:106-149 | in the command list `Issued` by a pass, while earlier keys are in `schema_dirs`, entry i's setup-schema is command 2i, followed by its update-schema with `schema_dirs[key]` when its key is known; an unknown key ends the pass right after its setup-schema and is the key reported |
| `Reconcile.IssuedAllKnown` | src/charm.py:110-149 | with every key known, a pass issues exactly two commands per entry and reports no unknown key |
| `Reconcile.PassFailsAtSetup` | src/charm.py:110-130 | a failing setup-schema of entry i is the last command run and the one the exception names |
| `Reconcile.PassFailsAtUpdate` | src/charm.py:131-149 | a failing update-schema of entry i is the last command run and the one the exception names |
| `Reconcile.PassStopsAtUnknownKey` | src/charm.py:106-149 | an entry whose key has no schema directory stops the pass after its setup-schema with a key error |
| `Reconcile.PassStep` | src/charm.py:110-149 | a completed entry extends the commands run by its setup-schema then its update-schema |
| `Reconcile.PassCompletes` | src/charm.py:110-149 | with known keys and no failing command, the whole pass runs and raises nothing |
| `Reconcile.ReconcileCompletes` | src/charm.py:110-163 | with n entries and no failure, exactly 2n commands are appended, entry i's setup-schema at 2i and update-schema at 2i+1; then Blocked("admin:temporal relation: not available") with no data written when there is no admin relation, otherwise every admin relation gets `schema_status = ready` and the unit becomes Active |
| `Reconcile.ReconcileCommandFails` | src/charm.py:110-163 | a failing command k ends the pass: commands 0..k are logged, none later, the exception names command k, no relation data is written and the status is unchanged |
| `Reconcile.ReconcileUnknownKey` | src/charm.py:106-149 | a key outside `schema_dirs` raises after that entry's setup-schema ran: the log grows by exactly the commands `Issued` by the pass (the setup/update pairs of entries 0..i-1, then entry i's setup-schema, 2i+1 commands), with status and relation data unchanged |
| `Reconcile.SimulatedLifecycle` | tests/unit/test_charm.py:41-85 | workload ready on a fresh leader gives the "database connections info not available" Blocked status with no command run; the admin relation bringing `db` and `visibility` then runs 4 commands and ends Active, or Blocked("admin:temporal relation: not available") without admin relations |
| `TemporalAdmin.TctlArgv` | src/charm.py:83-85 | the `tctl` command line is `tctl` followed by whitespace-free tokens that together spell the non-whitespace characters of `args` |
| `TemporalAdmin.TctlArgvSeparated` | src/charm.py:83-85 | whitespace runs in `args` separate the `tctl` arguments: the arguments of `a + ws + b` are those of `a` followed by those of `b` |
| `TemporalAdmin.Charm.constructor` | src/charm.py:49 | a new charm stores no connections and has run nothing |
| `TemporalAdmin.Charm.Execute` | src/charm.py:166-172 | `Argv(command, args)`, that is `[command] + args`, is appended to the command log, and the container's answer is returned |
| `TemporalAdmin.Charm.Install` | src/charm.py:52-55 | the status becomes Maintenance("installing temporal admin tools") and nothing else changes |
| `TemporalAdmin.Charm.RunSchemaCommands` | src/charm.py:110-149 | the loop appends exactly the commands of the pass up to the first failure and returns the exception the pass raises, if any |
| `TemporalAdmin.Charm.NotifySchemaReady` | src/charm.py:159-161 | the loop over admin relations leaves the relation data equal to `Publish` of the old data |
| `TemporalAdmin.Charm.SetupDbSchemas` | src/charm.py:92-163 | new state and hook outcome are exactly `ReconcileSpec` of the old state |
| `TemporalAdmin.Charm.PebbleReady` | src/charm.py:57-60 | workload ready runs the reconcile procedure: new state and outcome are `ReconcileSpec` of the old state |
| `TemporalAdmin.Charm.AdminRelationChanged` | src/charm.py:62-72 | new state and outcome are exactly `RelationChangedSpec` of the old state |
| `TemporalAdmin.Charm.TctlAction` | src/charm.py:74-90 | without a container it fails with "cannot connect to container" and runs nothing; otherwise it runs `tctl` with the split args once and fails with "command failed: <err>" or returns exactly {result: "command succeeded", output} |

## Left out

- The ops framework is not modelled: event registration (`framework.observe`), `StoredState` persistence, `main.main` and the Juju transport of relation data. Events are method calls and stored state is a field. When a hook raises, the framework commits neither the `StoredState` assignment of src/charm.py:71 nor a deferral. The model does not roll these back: on `Raised`, `RelationChangedSpec` and `AdminRelationChanged` keep `connections` set to the decoded payload.
- `container.exec`, `wait_output`, the 60-second timeout and the logging of stdout and stderr lines are not modelled. Each command's answer is a parameter (`World.failAt` for the schema commands, the `answer` argument for `tctl`). The output of the schema commands is discarded, as in the source.
- JSON decoding (`json.loads`) is not modelled. The decoded payload is a parameter, and None means the decoder raised. The model also does not cover three things that come out of decoding: payloads that decode to something other than an object of connection records, entries that lack one of host, port, dbname, user or password (a `KeyError` in the source), and non-string ports.
- The stored connections are an ordered list of `(key, connection)` pairs, standing for Python's insertion-ordered dict. Uniqueness of the keys is not enforced.
- A relation whose application data bag the model has never seen is treated as having an empty bag.
- The `log_event_handler` decorator and all logger calls are not modelled. They only log.
- The constants in `src/literals.py` are not used by `src/charm.py`, so they are not part of this model.
- A missing `args` action parameter (a `KeyError` in the source) is not modelled. The action's parameter schema is not part of this model.
- `Tokens.IsSpace` uses the fixed set of characters that Python's `str.split()` treats as whitespace. It does not consult a Unicode database.
