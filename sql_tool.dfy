/**
 * The `temporal-sql-tool` command lines the charm builds for one database
 * connection, and a reading of such a command line back into its options, so
 * that the builders can be checked against what the tool will see.
 */
module SqlTool {
  import opened Wrappers

  /** Connection details for one logical database, as published on the admin relation. */
  datatype Conn = Conn(host: string, port: string, dbname: string, user: string, password: string)

  const Tool := "temporal-sql-tool"
  const Plugin := "postgres"
  const InitialVersion := "0.0"

  /** The versioned schema directory of each logical database the charm knows. */
  const SchemaDirs: map<string, string> := map[
    "db" := "/etc/temporal/schema/postgresql/v96/temporal/versioned",
    "visibility" := "/etc/temporal/schema/postgresql/v96/visibility/versioned"
  ]

  /** `[command] + list(args)`: the argument vector handed to the container. */
  function Argv(command: string, args: seq<string>): seq<string> {
    [command] + args
  }

  /** The global options, shared by both schema commands. */
  function ConnectionFlags(c: Conn): seq<string> {
    ["--plugin", Plugin, "--endpoint", c.host, "--port", c.port,
     "--database", c.dbname, "--user", c.user, "--password", c.password]
  }

  /** What one `temporal-sql-tool` invocation asks for. */
  datatype Subcommand = SetupSchema(version: string) | UpdateSchema(schemaDir: string)
  datatype Invocation = Invocation(
    plugin: string, endpoint: string, port: string, database: string,
    user: string, password: string, subcommand: Subcommand)

  predicate IsFlag(t: string) {
    |t| >= 2 && t[0] == '-' && t[1] == '-'
  }

  /**
   * Reads the leading `--name value` pairs of `s` into `flags` (a value is
   * taken as is, even when it looks like a flag; a name given twice keeps its
   * last value). Returns the options read and the words after them.
   */
  function ReadFlags(s: seq<string>, flags: map<string, string>): (r: (map<string, string>, seq<string>))
    ensures |r.1| <= |s|
    ensures flags.Keys <= r.0.Keys
    decreases |s|
  {
    if |s| >= 2 && IsFlag(s[0]) then ReadFlags(s[2..], flags[s[0] := s[1]])
    else (flags, s)
  }

  /** How the tool reads an argument vector; None when it is not a schema command it accepts. */
  function Parse(argv: seq<string>): Option<Invocation> {
    if |argv| == 0 || argv[0] != Tool then None
    else
      var (flags, rest) := ReadFlags(argv[1..], map[]);
      if !("--plugin" in flags && "--endpoint" in flags && "--port" in flags
           && "--database" in flags && "--user" in flags && "--password" in flags) then None
      else if |rest| != 3 then None
      else
        var inv := Invocation(flags["--plugin"], flags["--endpoint"], flags["--port"],
                              flags["--database"], flags["--user"], flags["--password"], SetupSchema(""));
        if rest[0] == "setup-schema" && rest[1] == "-v" then Some(inv.(subcommand := SetupSchema(rest[2])))
        else if rest[0] == "update-schema" && rest[1] == "-d" then Some(inv.(subcommand := UpdateSchema(rest[2])))
        else None
  }

  lemma ReadFlagsPair(name: string, value: string, rest: seq<string>, flags: map<string, string>)
    requires IsFlag(name)
    ensures ReadFlags([name, value] + rest, flags) == ReadFlags(rest, flags[name := value])
  {
    assert ([name, value] + rest)[2..] == rest;
  }

  lemma ConnectionFlagsPairs(c: Conn, tail: seq<string>)
    ensures ConnectionFlags(c) + tail
         == ["--plugin", Plugin] + (["--endpoint", c.host] + (["--port", c.port] + (["--database", c.dbname]
            + (["--user", c.user] + (["--password", c.password] + tail)))))
  {
  }

  /** The global options of a schema command are read back exactly as the connection gave them. */
  lemma ReadConnectionFlags(c: Conn, tail: seq<string>)
    requires |tail| > 0 && !IsFlag(tail[0])
    ensures ReadFlags(ConnectionFlags(c) + tail, map[])
         == (map["--plugin" := Plugin, "--endpoint" := c.host, "--port" := c.port,
                 "--database" := c.dbname, "--user" := c.user, "--password" := c.password], tail)
  {
    var s6 := ["--password", c.password] + tail;
    var s5 := ["--user", c.user] + s6;
    var s4 := ["--database", c.dbname] + s5;
    var s3 := ["--port", c.port] + s4;
    var s2 := ["--endpoint", c.host] + s3;
    var s1 := ["--plugin", Plugin] + s2;
    ConnectionFlagsPairs(c, tail);
    var m1 := map["--plugin" := Plugin];
    var m2 := m1["--endpoint" := c.host];
    var m3 := m2["--port" := c.port];
    var m4 := m3["--database" := c.dbname];
    var m5 := m4["--user" := c.user];
    var m6 := m5["--password" := c.password];
    ReadFlagsPair("--plugin", Plugin, s2, map[]);
    ReadFlagsPair("--endpoint", c.host, s3, m1);
    ReadFlagsPair("--port", c.port, s4, m2);
    ReadFlagsPair("--database", c.dbname, s5, m3);
    ReadFlagsPair("--user", c.user, s6, m4);
    ReadFlagsPair("--password", c.password, tail, m5);
  }

  /** The `setup-schema` arguments: the connection's database, initialised at version 0.0. */
  function SetupSchemaArgs(c: Conn): seq<string> {
    ConnectionFlags(c) + ["setup-schema", "-v", InitialVersion]
  }

  /** The `update-schema` arguments: the connection's database, migrated with the schemas in `dir`. */
  function UpdateSchemaArgs(c: Conn, dir: string): seq<string> {
    ConnectionFlags(c) + ["update-schema", "-d", dir]
  }

  /** The `setup-schema` command targets the connection's database at version 0.0. */
  lemma ParseSetupSchema(c: Conn)
    ensures Parse(Argv(Tool, SetupSchemaArgs(c)))
         == Some(Invocation(Plugin, c.host, c.port, c.dbname, c.user, c.password, SetupSchema(InitialVersion)))
  {
    var tail := ["setup-schema", "-v", InitialVersion];
    ReadConnectionFlags(c, tail);
    assert Argv(Tool, SetupSchemaArgs(c))[1..] == ConnectionFlags(c) + tail;
  }

  /** The `update-schema` command targets the connection's database with the given schema directory. */
  lemma ParseUpdateSchema(c: Conn, dir: string)
    ensures Parse(Argv(Tool, UpdateSchemaArgs(c, dir)))
         == Some(Invocation(Plugin, c.host, c.port, c.dbname, c.user, c.password, UpdateSchema(dir)))
  {
    var tail := ["update-schema", "-d", dir];
    ReadConnectionFlags(c, tail);
    assert Argv(Tool, UpdateSchemaArgs(c, dir))[1..] == ConnectionFlags(c) + tail;
  }

  /** The schema directory table has exactly the two logical databases, each with its own directory. */
  lemma SchemaDirsTable()
    ensures SchemaDirs.Keys == {"db", "visibility"}
    ensures SchemaDirs["db"] != SchemaDirs["visibility"]
  {
    assert |SchemaDirs["db"]| != |SchemaDirs["visibility"]|;
  }
}
