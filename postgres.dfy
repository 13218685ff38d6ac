/**
 * The database provisioning of database_keycloak_setup/db_setup.py.
 *
 * create_user_and_database connects as the administrator, makes sure the
 * application role and the application database exist, closes that session,
 * reconnects as the application role on the application database and makes
 * sure the two schemas exist. Every check is a catalog lookup; every missing
 * resource is created. Any psycopg2 error is re-raised and ends the run.
 *
 * The PostgreSQL server is a `Server` object: its catalog (`state`) and the
 * requests it has received (`log`). Which requests the server answers with an
 * error is an input (`rejects`); a request changes the catalog only when it is
 * not rejected.
 */
module Postgres {
  import opened Outcomes

  /** The arguments of psycopg2.connect. */
  datatype ConnParams = ConnParams(host: string, port: string, database: string, user: string, password: string)

  /** The values create_user_and_database reads from the environment. */
  datatype Env = Env(
    admin: ConnParams,
    appHost: string, appPort: string, appDatabase: string, appUser: string, appPassword: string,
    keycloakSchema: string, appSchema: string)

  /** The application session: the application role on the application database. */
  function AppParams(env: Env): (p: ConnParams)
    ensures p.database == env.appDatabase && p.user == env.appUser && p.password == env.appPassword
  {
    ConnParams(env.appHost, env.appPort, env.appDatabase, env.appUser, env.appPassword)
  }

  /** An argument composed into a statement by psycopg2.sql. */
  datatype SqlArg = Identifier(name: string) | Literal(value: string)

  /** The statements the function executes. */
  datatype Query =
    | RoleLookup(rolname: string)
    | CreateRole(role: string, password: string)
    | GrantAllOnPublicSchema(role: string)
    | DefaultAllOnTables(role: string)
    | DefaultWritesOnTables(role: string)
    | DefaultAllOnFunctions(role: string)
    | DefaultAllOnSequences(role: string)
    | DatabaseLookup(datname: string)
    | CreateDatabase(name: string, owner: string)
    | SchemaLookup(nspname: string)
    | CreateSchema(name: string, owner: string)
  {
    /** The text given to sql.SQL: `{}` marks a composed argument, `%s` a bound parameter. */
    function Template(): string
    {
      match this
      case RoleLookup(_) => "SELECT 1 FROM pg_roles WHERE rolname = %s"
      case CreateRole(_, _) =>
        "CREATE ROLE {} NOSUPERUSER NOCREATEDB NOCREATEROLE NOINHERIT LOGIN NOREPLICATION NOBYPASSRLS PASSWORD {}"
      case GrantAllOnPublicSchema(_) => "GRANT ALL ON SCHEMA public TO {}"
      case DefaultAllOnTables(_) => "ALTER DEFAULT PRIVILEGES IN SCHEMA public GRANT ALL ON TABLES TO {}"
      case DefaultWritesOnTables(_) =>
        "ALTER DEFAULT PRIVILEGES IN SCHEMA public GRANT INSERT, UPDATE, DELETE, REFERENCES, TRIGGER, TRUNCATE ON TABLES TO {}"
      case DefaultAllOnFunctions(_) => "ALTER DEFAULT PRIVILEGES IN SCHEMA public GRANT ALL ON FUNCTIONS TO {}"
      case DefaultAllOnSequences(_) => "ALTER DEFAULT PRIVILEGES IN SCHEMA public GRANT ALL ON SEQUENCES TO {}"
      case DatabaseLookup(_) => "SELECT 1 FROM pg_database WHERE datname = %s"
      case CreateDatabase(_, _) => "CREATE DATABASE {} OWNER {}"
      case SchemaLookup(_) => "SELECT 1 FROM pg_namespace WHERE nspname = %s"
      case CreateSchema(_, _) => "CREATE SCHEMA IF NOT EXISTS {} AUTHORIZATION {}"
    }

    /** The arguments composed into the `{}` places, in order. */
    function Args(): seq<SqlArg>
    {
      match this
      case CreateRole(role, password) => [Identifier(role), Literal(password)]
      case GrantAllOnPublicSchema(role) => [Identifier(role)]
      case DefaultAllOnTables(role) => [Identifier(role)]
      case DefaultWritesOnTables(role) => [Identifier(role)]
      case DefaultAllOnFunctions(role) => [Identifier(role)]
      case DefaultAllOnSequences(role) => [Identifier(role)]
      case CreateDatabase(name, owner) => [Identifier(name), Identifier(owner)]
      case CreateSchema(name, owner) => [Identifier(name), Identifier(owner)]
      case _ => []
    }

    /** The parameters bound to `%s`. */
    function Params(): seq<string>
    {
      match this
      case RoleLookup(rolname) => [rolname]
      case DatabaseLookup(datname) => [datname]
      case SchemaLookup(nspname) => [nspname]
      case _ => []
    }

    predicate IsLookup()
    {
      RoleLookup? || DatabaseLookup? || SchemaLookup?
    }

    /** Which step of the function issues the statement: 0 the role, 1 the database, 2 the schemas. */
    function Step(): nat
    {
      match this
      case DatabaseLookup(_) => 1
      case CreateDatabase(_, _) => 1
      case SchemaLookup(_) => 2
      case CreateSchema(_, _) => 2
      case _ => 0
    }

    predicate IsCreation()
    {
      CreateRole? || CreateDatabase? || CreateSchema?
    }

    /** The lookup that decides whether a creation runs. */
    function CheckFor(): Query
      requires IsCreation()
    {
      match this
      case CreateRole(role, _) => RoleLookup(role)
      case CreateDatabase(name, _) => DatabaseLookup(name)
      case CreateSchema(name, _) => SchemaLookup(name)
    }
  }

  /** What the server receives. `Execute` carries the database of the cursor's connection. */
  datatype Request =
    | Connect(params: ConnParams)
    | Execute(database: string, query: Query)
    | CursorClose
    | ConnectionClose

  /** Connecting and executing can raise psycopg2.Error; closing is taken to succeed. */
  predicate Fails(r: Request, rejects: Request -> bool)
  {
    (r.Connect? || r.Execute?) && rejects(r)
  }

  /** The part of the catalog the function reads: pg_roles, pg_database and pg_namespace (per database). */
  datatype State = State(roles: set<string>, databases: set<string>, namespaces: set<(string, string)>)

  /** The effect on the catalog of a request the server accepted. */
  function Effect(s: State, r: Request): State
  {
    match r
    case Execute(_, CreateRole(role, _)) => s.(roles := s.roles + {role})
    case Execute(_, CreateDatabase(name, _)) => s.(databases := s.databases + {name})
    case Execute(db, CreateSchema(name, _)) => s.(namespaces := s.namespaces + {(db, name)})
    case _ => s
  }

  /** Whether a lookup executed on database `db` returns a row. */
  function Lookup(s: State, db: string, q: Query): bool
  {
    match q
    case RoleLookup(rolname) => rolname in s.roles
    case DatabaseLookup(datname) => datname in s.databases
    case SchemaLookup(nspname) => (db, nspname) in s.namespaces
    case _ => false
  }

  /** The catalog after the server accepted every request of `trace`, in order. */
  function Apply(s: State, trace: seq<Request>): State
    decreases |trace|
  {
    if trace == [] then s else Effect(Apply(s, trace[..|trace| - 1]), trace[|trace| - 1])
  }

  lemma {:induction false} ApplyAppend(s: State, a: seq<Request>, b: seq<Request>)
    ensures Apply(s, a + b) == Apply(Apply(s, a), b)
    decreases |b|
  {
    if b == [] {
      assert a + b == a;
    } else {
      var b' := b[..|b| - 1];
      assert (a + b)[..|a + b| - 1] == a + b';
      ApplyAppend(s, a, b');
    }
  }

  /** The index of the first request of `trace` that raises, or |trace| when none does. */
  function FirstFailure(trace: seq<Request>, rejects: Request -> bool): (k: nat)
    ensures k <= |trace|
    ensures forall j :: 0 <= j < k ==> !Fails(trace[j], rejects)
    ensures k < |trace| ==> Fails(trace[k], rejects)
    decreases |trace|
  {
    if trace == [] then 0
    else if Fails(trace[0], rejects) then 0
    else 1 + FirstFailure(trace[1..], rejects)
  }

  /** What the server shows at one moment: its catalog and the requests it received. */
  datatype Snapshot = Snapshot(log: seq<Request>, state: State)

  /** Where a run ends: what the server then shows, and whether an exception was raised. */
  datatype RunResult = RunResult(after: Snapshot, outcome: Outcome<Request>)

  /**
   * Sending the requests of `trace` in order, the way the function does: each
   * request is logged; one that raises ends the run with that exception; one
   * that succeeds takes effect on the catalog.
   */
  function Run(s: Snapshot, trace: seq<Request>, rejects: Request -> bool): RunResult
    decreases |trace|
  {
    if trace == [] then RunResult(s, Returned)
    else if Fails(trace[0], rejects) then RunResult(Snapshot(s.log + [trace[0]], s.state), Raised(trace[0]))
    else Run(Snapshot(s.log + [trace[0]], Effect(s.state, trace[0])), trace[1..], rejects)
  }

  /** Running `a + b` is running `a` and, unless that raised, then `b`. */
  lemma {:induction false} RunAppend(s: Snapshot, a: seq<Request>, b: seq<Request>, rejects: Request -> bool)
    ensures Run(s, a + b, rejects) ==
            (var first := Run(s, a, rejects); if first.outcome.Raised? then first else Run(first.after, b, rejects))
    decreases |a|
  {
    if a == [] {
      assert a + b == b;
    } else {
      assert (a + b)[0] == a[0];
      assert (a + b)[1..] == a[1..] + b;
      if !Fails(a[0], rejects) {
        RunAppend(Snapshot(s.log + [a[0]], Effect(s.state, a[0])), a[1..], b, rejects);
      }
    }
  }

  /** A run that returned, followed by a run of `next` from where it ended. */
  lemma RunThen(start: Snapshot, done: seq<Request>, middle: Snapshot, next: seq<Request>, rejects: Request -> bool,
                after: Snapshot, outcome: Outcome<Request>)
    requires Run(start, done, rejects) == RunResult(middle, Returned)
    requires Run(middle, next, rejects) == RunResult(after, outcome)
    ensures Run(start, done + next, rejects) == RunResult(after, outcome)
  {
    RunAppend(start, done, next, rejects);
  }

  /** A run that raised is not affected by what would have come after. */
  lemma RunStops(start: Snapshot, done: seq<Request>, rest: seq<Request>, rejects: Request -> bool)
    requires Run(start, done, rejects).outcome.Raised?
    ensures Run(start, done + rest, rejects) == Run(start, done, rejects)
  {
    RunAppend(start, done, rest, rejects);
  }

  /**
   * What a run amounts to: the requests up to and including the first one that
   * raises are sent, the catalog takes the effects of those before it, and the
   * outcome is that exception, or a normal return when none raises.
   */
  lemma {:induction false} RunSendsUpToFirstFailure(s: Snapshot, trace: seq<Request>, rejects: Request -> bool)
    ensures var k := FirstFailure(trace, rejects);
            var result := Run(s, trace, rejects);
            && result.after.log == s.log + trace[..if k < |trace| then k + 1 else k]
            && result.after.state == Apply(s.state, trace[..k])
            && result.outcome == if k < |trace| then Raised(trace[k]) else Returned
    decreases |trace|
  {
    if trace != [] {
      var r := trace[0];
      assert trace == [r] + trace[1..];
      if Fails(r, rejects) {
        assert trace[..1] == [r];
        assert trace[..0] == [];
      } else {
        var s' := Snapshot(s.log + [r], Effect(s.state, r));
        var rest := trace[1..];
        var k' := FirstFailure(rest, rejects);
        assert FirstFailure(trace, rejects) == k' + 1;
        assert Run(s, trace, rejects) == Run(s', rest, rejects);
        RunSendsUpToFirstFailure(s', rest, rejects);
        TakeCons(trace, k');
        if k' < |rest| {
          TakeCons(trace, k' + 1);
        }
        ApplyCons(s.state, r, rest[..k']);
      }
    }
  }

  /** A prefix of a nonempty sequence is its head followed by a prefix of its tail. */
  lemma TakeCons<T>(s: seq<T>, k: nat)
    requires k < |s|
    ensures s[..k + 1] == [s[0]] + s[1..][..k]
  {
  }

  /** Accepting `r` and then the requests of `t`. */
  lemma ApplyCons(s: State, r: Request, t: seq<Request>)
    ensures Apply(s, [r] + t) == Apply(Effect(s, r), t)
  {
    assert Apply(s, [r]) == Effect(s, r) by {
      assert [r][..0] == [];
    }
    ApplyAppend(s, [r], t);
  }

  /** The six statements that create and equip the application role, in the order they run. */
  function RoleSetup(role: string, password: string): seq<Query>
  {
    [CreateRole(role, password), GrantAllOnPublicSchema(role), DefaultAllOnTables(role),
     DefaultWritesOnTables(role), DefaultAllOnFunctions(role), DefaultAllOnSequences(role)]
  }

  /** Executing each of `qs`, in order, on database `db`. */
  function Executions(db: string, qs: seq<Query>): (rs: seq<Request>)
    ensures |rs| == |qs|
    decreases |qs|
  {
    if qs == [] then [] else [Execute(db, qs[0])] + Executions(db, qs[1..])
  }

  lemma {:induction false} ExecutionsAppend(db: string, a: seq<Query>, b: seq<Query>)
    ensures Executions(db, a + b) == Executions(db, a) + Executions(db, b)
    decreases |a|
  {
    if a == [] {
      assert a + b == b;
    } else {
      assert (a + b)[0] == a[0];
      assert (a + b)[1..] == a[1..] + b;
      ExecutionsAppend(db, a[1..], b);
    }
  }

  lemma ExecutionsStep(db: string, qs: seq<Query>, i: nat)
    requires i < |qs|
    ensures Executions(db, qs[..i + 1]) == Executions(db, qs[..i]) + [Execute(db, qs[i])]
  {
    assert qs[..i + 1] == qs[..i] + [qs[i]];
    ExecutionsAppend(db, qs[..i], [qs[i]]);
    assert Executions(db, [qs[i]]) == [Execute(db, qs[i])] by {
      assert [qs[i]][1..] == [];
    }
  }

  lemma ExecutionsSplit(db: string, qs: seq<Query>, i: nat)
    requires i <= |qs|
    ensures Executions(db, qs[..i]) + Executions(db, qs[i..]) == Executions(db, qs)
  {
    assert qs[..i] + qs[i..] == qs;
    ExecutionsAppend(db, qs[..i], qs[i..]);
  }

  /** The role step without failures: the pg_roles lookup, then the six statements when it finds no row. */
  function RoleStage(db: string, role: string, password: string, roles: set<string>): seq<Request>
  {
    [Execute(db, RoleLookup(role))] + (if role in roles then [] else Executions(db, RoleSetup(role, password)))
  }

  /** The database step without failures: the pg_database lookup, then CREATE DATABASE when it finds no row. */
  function DatabaseStage(db: string, name: string, owner: string, databases: set<string>): seq<Request>
  {
    [Execute(db, DatabaseLookup(name))] + (if name in databases then [] else [Execute(db, CreateDatabase(name, owner))])
  }

  /** One schema without failures: the pg_namespace lookup, then the creation when it finds no row. */
  function SchemaStage(db: string, owner: string, schema: string, ns: set<(string, string)>): seq<Request>
  {
    [Execute(db, SchemaLookup(schema))] + (if (db, schema) in ns then [] else [Execute(db, CreateSchema(schema, owner))])
  }

  /**
   * The schema loop without failures: each name in order, `ns` being the
   * catalog's namespaces when that name's turn comes.
   */
  function SchemaSteps(db: string, owner: string, schemas: seq<string>, ns: set<(string, string)>): seq<Request>
    decreases |schemas|
  {
    if schemas == [] then []
    else SchemaStage(db, owner, schemas[0], ns) + SchemaSteps(db, owner, schemas[1..], ns + {(db, schemas[0])})
  }

  /** The administrator session without failures: connect, the role step, the database step, close. */
  function AdminSession(env: Env, s0: State): seq<Request>
  {
    var adminDb := env.admin.database;
    [Connect(env.admin)]
    + RoleStage(adminDb, env.appUser, env.appPassword, s0.roles)
    + DatabaseStage(adminDb, env.appDatabase, env.appUser, s0.databases)
    + [CursorClose, ConnectionClose]
  }

  /** The application session without failures: connect, the schema loop, close. */
  function AppSession(env: Env, s0: State): seq<Request>
  {
    [Connect(AppParams(env))]
    + SchemaSteps(env.appDatabase, env.appUser, [env.keycloakSchema, env.appSchema], s0.namespaces)
    + [CursorClose, ConnectionClose]
  }

  /**
   * Every request create_user_and_database sends when the server rejects none,
   * starting from catalog `s0`.
   */
  function Provisioning(env: Env, s0: State): seq<Request>
  {
    AdminSession(env, s0) + AppSession(env, s0)
  }

  /** The server's catalog and the requests it received. */
  class Server {
    var state: State
    var log: seq<Request>

    constructor (initial: State)
      ensures state == initial && log == []
    {
      state := initial;
      log := [];
    }

    function Now(): Snapshot
      reads this
    {
      Snapshot(log, state)
    }

    /** Receives `r` and answers it; returns whether a lookup found a row. */
    method Send(r: Request, rejects: Request -> bool) returns (row: bool, outcome: Outcome<Request>)
      modifies this
      ensures Run(old(Now()), [r], rejects) == RunResult(Now(), outcome)
      ensures log == old(log) + [r]
      ensures state == if Fails(r, rejects) then old(state) else Effect(old(state), r)
      ensures outcome == if Fails(r, rejects) then Raised(r) else Returned
      ensures row == (!Fails(r, rejects) && r.Execute? && Lookup(old(state), r.database, r.query))
    {
      row := !Fails(r, rejects) && r.Execute? && Lookup(state, r.database, r.query);
      log := log + [r];
      if Fails(r, rejects) {
        outcome := Raised(r);
      } else {
        state := Effect(state, r);
        outcome := Returned;
      }
      assert [r][1..] == [];
    }
  }

  datatype Connection = Connection(params: ConnParams, closed: bool)

  /** A cursor on the connection to `database`. */
  datatype Cursor = Cursor(database: string)

  /** ConnectionManager: holds the connection most recently opened by GetCursor. */
  class ConnectionManager {
    var connection: Option<Connection>

    constructor ()
      ensures connection == None
    {
      connection := None;
    }

    /** get_cursor: connects (with autocommit) and returns a cursor on that connection. */
    method GetCursor(server: Server, params: ConnParams, rejects: Request -> bool)
      returns (cursor: Cursor, outcome: Outcome<Request>)
      modifies this, server
      ensures Run(old(server.Now()), [Connect(params)], rejects) == RunResult(server.Now(), outcome)
      ensures server.state == old(server.state)
      ensures cursor == Cursor(params.database)
      ensures connection == if outcome.Returned? then Some(Connection(params, false)) else old(connection)
    {
      var _, o := server.Send(Connect(params), rejects);
      outcome := o;
      cursor := Cursor(params.database);
      if outcome.Returned? {
        connection := Some(Connection(params, false));
      }
    }

    /** close_connection: closes the cursor, then the connection. */
    method CloseConnection(server: Server, cursor: Cursor, rejects: Request -> bool)
      requires connection.Some?
      modifies this, server
      ensures Run(old(server.Now()), [CursorClose, ConnectionClose], rejects) == RunResult(server.Now(), Returned)
      ensures server.state == old(server.state)
      ensures connection == Some(old(connection).value.(closed := true))
    {
      ghost var s0 := server.Now();
      var _, _ := server.Send(CursorClose, rejects);
      var _, _ := server.Send(ConnectionClose, rejects);
      RunAppend(s0, [CursorClose], [ConnectionClose], rejects);
      assert [CursorClose] + [ConnectionClose] == [CursorClose, ConnectionClose];
      connection := Some(connection.value.(closed := true));
    }
  }

  /** The `for query in query_list` loop of lines 96-97: execute each statement in order on the cursor. */
  method ExecuteEach(server: Server, cursor: Cursor, queries: seq<Query>, rejects: Request -> bool)
    returns (outcome: Outcome<Request>)
    modifies server
    ensures Run(old(server.Now()), Executions(cursor.database, queries), rejects) == RunResult(server.Now(), outcome)
    ensures (forall q :: q in queries ==> !q.CreateDatabase? && !q.CreateSchema?) ==>
              server.state.databases == old(server.state).databases && server.state.namespaces == old(server.state).namespaces
  {
    ghost var start := server.Now();
    ghost var keeps := forall q :: q in queries ==> !q.CreateDatabase? && !q.CreateSchema?;
    var db := cursor.database;
    var i := 0;
    while i < |queries|
      invariant 0 <= i <= |queries|
      invariant Run(start, Executions(db, queries[..i]), rejects) == RunResult(server.Now(), Returned)
      invariant keeps ==> server.state.databases == start.state.databases && server.state.namespaces == start.state.namespaces
    {
      ghost var before := server.Now();
      var r := Execute(db, queries[i]);
      var _, o := server.Send(r, rejects);
      RunThen(start, Executions(db, queries[..i]), before, [r], rejects, server.Now(), o);
      ExecutionsStep(db, queries, i);
      if o.Raised? {
        RunStops(start, Executions(db, queries[..i + 1]), Executions(db, queries[i + 1..]), rejects);
        ExecutionsSplit(db, queries, i + 1);
        return o;
      }
      i := i + 1;
    }
    assert queries[..i] == queries;
    outcome := Returned;
  }

  /** Lines 71-99: look the role up in pg_roles and, when it is missing, run the six role statements in order. */
  method EnsureRole(server: Server, cursor: Cursor, role: string, password: string, rejects: Request -> bool)
    returns (outcome: Outcome<Request>)
    modifies server
    ensures Run(old(server.Now()), RoleStage(cursor.database, role, password, old(server.state).roles), rejects)
            == RunResult(server.Now(), outcome)
    ensures server.state.databases == old(server.state).databases
    ensures server.state.namespaces == old(server.state).namespaces
  {
    ghost var start := server.Now();
    var lookup := Execute(cursor.database, RoleLookup(role));
    var queries := RoleSetup(role, password);
    ghost var setup := if role in start.state.roles then [] else Executions(cursor.database, queries);
    var found;
    found, outcome := server.Send(lookup, rejects);
    if outcome.Raised? {
      RunStops(start, [lookup], setup, rejects);
      return;
    }
    if !found {
      ghost var middle := server.Now();
      assert forall q :: q in queries ==> !q.CreateDatabase? && !q.CreateSchema?;
      outcome := ExecuteEach(server, cursor, queries, rejects);
      RunAppend(start, [lookup], setup, rejects);
    } else {
      assert [lookup] + setup == [lookup];
    }
  }

  /** Lines 101-114: look the database up in pg_database and create it, owned by the role, when it is missing. */
  method EnsureDatabase(server: Server, cursor: Cursor, name: string, owner: string, rejects: Request -> bool)
    returns (outcome: Outcome<Request>)
    modifies server
    ensures Run(old(server.Now()), DatabaseStage(cursor.database, name, owner, old(server.state).databases), rejects)
            == RunResult(server.Now(), outcome)
    ensures server.state.namespaces == old(server.state).namespaces
  {
    ghost var start := server.Now();
    var lookup := Execute(cursor.database, DatabaseLookup(name));
    ghost var create := if name in start.state.databases then [] else [Execute(cursor.database, CreateDatabase(name, owner))];
    var found;
    found, outcome := server.Send(lookup, rejects);
    RunAppend(start, [lookup], create, rejects);
    if outcome.Raised? {
      return;
    }
    if !found {
      var r := Execute(cursor.database, CreateDatabase(name, owner));
      var _, o := server.Send(r, rejects);
      outcome := o;
      RunAppend(start, [lookup], [r], rejects);
    } else {
      assert [lookup] + create == [lookup];
    }
  }

  /** Lines 130-141, one iteration: look the schema up in pg_namespace and create it when it is missing. */
  method EnsureSchema(server: Server, cursor: Cursor, schema: string, owner: string, rejects: Request -> bool)
    returns (outcome: Outcome<Request>)
    modifies server
    ensures Run(old(server.Now()), SchemaStage(cursor.database, owner, schema, old(server.state).namespaces), rejects)
            == RunResult(server.Now(), outcome)
    ensures outcome.Returned? ==> server.state.namespaces == old(server.state).namespaces + {(cursor.database, schema)}
  {
    ghost var start := server.Now();
    var lookup := Execute(cursor.database, SchemaLookup(schema));
    ghost var create := if (cursor.database, schema) in start.state.namespaces then []
                        else [Execute(cursor.database, CreateSchema(schema, owner))];
    var found;
    found, outcome := server.Send(lookup, rejects);
    if outcome.Raised? {
      RunStops(start, [lookup], create, rejects);
      return;
    }
    if !found {
      ghost var middle := server.Now();
      var r := Execute(cursor.database, CreateSchema(schema, owner));
      var _, o := server.Send(r, rejects);
      outcome := o;
      RunThen(start, [lookup], middle, [r], rejects, server.Now(), o);
    } else {
      assert [lookup] + create == [lookup];
    }
  }

  /** Lines 128-141: the schemas in order, each looked up and created when missing. */
  method EnsureSchemas(server: Server, cursor: Cursor, schemas: seq<string>, owner: string, rejects: Request -> bool)
    returns (outcome: Outcome<Request>)
    modifies server
    ensures Run(old(server.Now()), SchemaSteps(cursor.database, owner, schemas, old(server.state).namespaces), rejects)
            == RunResult(server.Now(), outcome)
  {
    ghost var start := server.Now();
    var db := cursor.database;
    ghost var full := SchemaSteps(db, owner, schemas, start.state.namespaces);
    ghost var done: seq<Request> := [];
    assert [] + full == full;
    var i := 0;
    while i < |schemas|
      invariant 0 <= i <= |schemas|
      invariant Run(start, done, rejects) == RunResult(server.Now(), Returned)
      invariant done + SchemaSteps(db, owner, schemas[i..], server.state.namespaces) == full
    {
      ghost var before := server.Now();
      ghost var stage := SchemaStage(db, owner, schemas[i], before.state.namespaces);
      ghost var later := SchemaSteps(db, owner, schemas[i + 1..], before.state.namespaces + {(db, schemas[i])});
      assert schemas[i..][1..] == schemas[i + 1..];
      assert done + stage + later == full;
      var o := EnsureSchema(server, cursor, schemas[i], owner, rejects);
      RunAppend(start, done, stage, rejects);
      if o.Raised? {
        RunStops(start, done + stage, later, rejects);
        return o;
      }
      done := done + stage;
      i := i + 1;
    }
    assert done == full;
    outcome := Returned;
  }

  /** Cutting the seven stages of a run after any stage. */
  lemma StageCuts(t1: seq<Request>, t2: seq<Request>, t3: seq<Request>, t4: seq<Request>,
                  t5: seq<Request>, t6: seq<Request>, t7: seq<Request>)
    ensures var all := t1 + t2 + t3 + t4 + t5 + t6 + t7;
            && t1 + (t2 + t3 + t4 + t5 + t6 + t7) == all
            && t1 + t2 + (t3 + t4 + t5 + t6 + t7) == all
            && t1 + t2 + t3 + (t4 + t5 + t6 + t7) == all
            && t1 + t2 + t3 + t4 + t5 + (t6 + t7) == all
  {
  }

  /**
   * create_user_and_database (lines 43-150): the requests sent are those of the
   * fault-free run, and that run stops at the first request the server rejects,
   * whose error is re-raised.
   */
  method CreateUserAndDatabase(env: Env, server: Server, rejects: Request -> bool) returns (outcome: Outcome<Request>)
    modifies server
    ensures Run(old(server.Now()), Provisioning(env, old(server.state)), rejects) == RunResult(server.Now(), outcome)
  {
    ghost var s0 := server.Now();
    var adminDb := env.admin.database;
    var user := env.appUser;
    ghost var t1 := [Connect(env.admin)];
    ghost var t2 := RoleStage(adminDb, user, env.appPassword, s0.state.roles);
    ghost var t3 := DatabaseStage(adminDb, env.appDatabase, user, s0.state.databases);
    ghost var t4: seq<Request> := [CursorClose, ConnectionClose];
    ghost var t5 := [Connect(AppParams(env))];
    ghost var t6 := SchemaSteps(env.appDatabase, user, [env.keycloakSchema, env.appSchema], s0.state.namespaces);
    ghost var t7: seq<Request> := [CursorClose, ConnectionClose];
    ghost var full := Provisioning(env, s0.state);
    assert t1 + t2 + t3 + t4 + t5 + t6 + t7 == full;
    StageCuts(t1, t2, t3, t4, t5, t6, t7);
    ghost var mark: Snapshot;

    // admin connection: the role and the database
    var cm := new ConnectionManager();
    var cursor, o := cm.GetCursor(server, env.admin, rejects);
    if o.Raised? {
      RunStops(s0, t1, t2 + t3 + t4 + t5 + t6 + t7, rejects);
      return o;
    }
    mark := server.Now();
    o := EnsureRole(server, cursor, user, env.appPassword, rejects);
    RunThen(s0, t1, mark, t2, rejects, server.Now(), o);
    if o.Raised? {
      RunStops(s0, t1 + t2, t3 + t4 + t5 + t6 + t7, rejects);
      return o;
    }
    mark := server.Now();
    o := EnsureDatabase(server, cursor, env.appDatabase, user, rejects);
    RunThen(s0, t1 + t2, mark, t3, rejects, server.Now(), o);
    if o.Raised? {
      RunStops(s0, t1 + t2 + t3, t4 + t5 + t6 + t7, rejects);
      return o;
    }
    mark := server.Now();
    cm.CloseConnection(server, cursor, rejects);
    RunThen(s0, t1 + t2 + t3, mark, t4, rejects, server.Now(), Returned);

    // application connection: the two schemas
    mark := server.Now();
    cursor, o := cm.GetCursor(server, AppParams(env), rejects);
    RunThen(s0, t1 + t2 + t3 + t4, mark, t5, rejects, server.Now(), o);
    if o.Raised? {
      RunStops(s0, t1 + t2 + t3 + t4 + t5, t6 + t7, rejects);
      return o;
    }
    mark := server.Now();
    o := EnsureSchemas(server, cursor, [env.keycloakSchema, env.appSchema], user, rejects);
    RunThen(s0, t1 + t2 + t3 + t4 + t5, mark, t6, rejects, server.Now(), o);
    if o.Raised? {
      RunStops(s0, t1 + t2 + t3 + t4 + t5 + t6, t7, rejects);
      return o;
    }
    mark := server.Now();
    cm.CloseConnection(server, cursor, rejects);
    RunThen(s0, t1 + t2 + t3 + t4 + t5 + t6, mark, t7, rejects, server.Now(), Returned);
    outcome := Returned;
  }
}
