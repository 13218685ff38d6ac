/**
 * What the request trace of create_user_and_database promises, whatever the
 * catalog holds at the start: which statements run, in which order, on which
 * session, what a second run does, and where a failure leaves the log.
 */
module PostgresProperties {
  import opened Outcomes
  import opened Postgres

  /** Every request of `t` executes a statement of step `step` on database `db`. */
  ghost predicate ExecutesOn(t: seq<Request>, db: string, step: nat)
  {
    forall i :: 0 <= i < |t| ==> t[i].Execute? && t[i].database == db && t[i].query.Step() == step
  }

  /** Every statement executed in `t` belongs to a step between `lo` and `hi`. */
  ghost predicate StepsWithin(t: seq<Request>, lo: nat, hi: nat)
  {
    forall i :: 0 <= i < |t| && t[i].Execute? ==> lo <= t[i].query.Step() <= hi
  }

  /** Along `t`, the steps of the executed statements never go back. */
  ghost predicate StepsAscend(t: seq<Request>)
  {
    forall i, j :: 0 <= i < j < |t| && t[i].Execute? && t[j].Execute? ==> t[i].query.Step() <= t[j].query.Step()
  }

  /** `t` stays within one session: it opens no connection and executes only on `db`. */
  ghost predicate WithinSession(t: seq<Request>, db: string)
  {
    forall i :: 0 <= i < |t| ==> !t[i].Connect? && (t[i].Execute? ==> t[i].database == db)
  }

  predicate IsCreation(r: Request)
  {
    r.Execute? && r.query.IsCreation()
  }

  /** Every creation in `t` comes right after the lookup of the same name on the same database. */
  ghost predicate ChecksBeforeCreating(t: seq<Request>)
  {
    forall j :: 0 <= j < |t| && IsCreation(t[j]) ==> 0 < j && t[j - 1] == Execute(t[j].database, t[j].query.CheckFor())
  }

  /** The lookups of `t`, in order. */
  function Lookups(t: seq<Request>): (qs: seq<Query>)
    ensures |qs| <= |t|
    ensures forall q :: q in qs ==> q.IsLookup()
    decreases |t|
  {
    if t == [] then []
    else (if t[0].Execute? && t[0].query.IsLookup() then [t[0].query] else []) + Lookups(t[1..])
  }

  lemma {:induction false} LookupsAppend(a: seq<Request>, b: seq<Request>)
    ensures Lookups(a + b) == Lookups(a) + Lookups(b)
    decreases |a|
  {
    if a == [] {
      assert a + b == b;
    } else {
      assert (a + b)[0] == a[0];
      assert (a + b)[1..] == a[1..] + b;
      LookupsAppend(a[1..], b);
    }
  }

  lemma {:induction false} NoLookups(t: seq<Request>)
    requires forall i :: 0 <= i < |t| ==> !(t[i].Execute? && t[i].query.IsLookup())
    ensures Lookups(t) == []
    decreases |t|
  {
    if t != [] {
      NoLookups(t[1..]);
    }
  }

  lemma OneLookup(r: Request)
    requires r.Execute? && r.query.IsLookup()
    ensures Lookups([r]) == [r.query]
  {
    assert [r][1..] == [];
  }

  lemma {:induction false} ExecutionsAt(db: string, qs: seq<Query>)
    ensures forall i :: 0 <= i < |qs| ==> Executions(db, qs)[i] == Execute(db, qs[i])
    decreases |qs|
  {
    if qs != [] {
      ExecutionsAt(db, qs[1..]);
    }
  }

  // ----- the shape of each step -----

  /** The six role statements: all of step 0 on `db`, CREATE ROLE first, no lookup and no other creation. */
  lemma RoleSetupShape(db: string, role: string, password: string)
    ensures var t := Executions(db, RoleSetup(role, password));
            && |t| == 6
            && ExecutesOn(t, db, 0)
            && t[0] == Execute(db, CreateRole(role, password))
            && (forall i :: 0 < i < |t| ==> !IsCreation(t[i]) && !t[i].query.IsLookup())
  {
    ExecutionsAt(db, RoleSetup(role, password));
  }

  lemma RoleStageShape(db: string, role: string, password: string, roles: set<string>)
    ensures var t := RoleStage(db, role, password, roles);
            && ExecutesOn(t, db, 0)
            && Lookups(t) == [RoleLookup(role)]
            && ChecksBeforeCreating(t)
  {
    var lookup := Execute(db, RoleLookup(role));
    var setup := if role in roles then [] else Executions(db, RoleSetup(role, password));
    RoleSetupShape(db, role, password);
    OneLookup(lookup);
    NoLookups(setup);
    LookupsAppend([lookup], setup);
  }

  lemma DatabaseStageShape(db: string, name: string, owner: string, databases: set<string>)
    ensures var t := DatabaseStage(db, name, owner, databases);
            && ExecutesOn(t, db, 1)
            && Lookups(t) == [DatabaseLookup(name)]
            && ChecksBeforeCreating(t)
  {
    var lookup := Execute(db, DatabaseLookup(name));
    var create := if name in databases then [] else [Execute(db, CreateDatabase(name, owner))];
    OneLookup(lookup);
    NoLookups(create);
    LookupsAppend([lookup], create);
  }

  lemma SchemaStageShape(db: string, owner: string, schema: string, ns: set<(string, string)>)
    ensures var t := SchemaStage(db, owner, schema, ns);
            && ExecutesOn(t, db, 2)
            && Lookups(t) == [SchemaLookup(schema)]
            && ChecksBeforeCreating(t)
  {
    var lookup := Execute(db, SchemaLookup(schema));
    var create := if (db, schema) in ns then [] else [Execute(db, CreateSchema(schema, owner))];
    OneLookup(lookup);
    NoLookups(create);
    LookupsAppend([lookup], create);
  }

  /** The schema loop over its two names. */
  lemma TwoSchemas(db: string, owner: string, first: string, second: string, ns: set<(string, string)>)
    ensures SchemaSteps(db, owner, [first, second], ns)
            == SchemaStage(db, owner, first, ns) + SchemaStage(db, owner, second, ns + {(db, first)})
  {
    assert [first, second][1..] == [second];
    assert [second][1..] == [];
    var ns' := ns + {(db, first)};
    assert SchemaSteps(db, owner, [second][1..], ns' + {(db, second)}) == [];
    assert SchemaSteps(db, owner, [second], ns') == SchemaStage(db, owner, second, ns') + [];
  }

  // ----- composing pieces -----

  lemma ExecutesOnAppend(a: seq<Request>, b: seq<Request>, db: string, step: nat)
    requires ExecutesOn(a, db, step) && ExecutesOn(b, db, step)
    ensures ExecutesOn(a + b, db, step)
  {
    forall i | 0 <= i < |a + b|
      ensures (a + b)[i].Execute? && (a + b)[i].database == db && (a + b)[i].query.Step() == step
    {
      if i < |a| {
        assert (a + b)[i] == a[i];
      } else {
        assert (a + b)[i] == b[i - |a|];
      }
    }
  }

  lemma ExecutesOnOrdered(t: seq<Request>, db: string, step: nat, lo: nat, hi: nat)
    requires ExecutesOn(t, db, step) && lo <= step <= hi
    ensures StepsAscend(t) && StepsWithin(t, lo, hi) && WithinSession(t, db)
  {
  }

  lemma NoStatementsOrdered(t: seq<Request>, lo: nat, hi: nat)
    requires forall i :: 0 <= i < |t| ==> !t[i].Execute?
    ensures StepsAscend(t) && StepsWithin(t, lo, hi)
  {
  }

  lemma AscendAppend(a: seq<Request>, b: seq<Request>, lo: nat, mid: nat, hi: nat)
    requires lo <= mid <= hi
    requires StepsAscend(a) && StepsWithin(a, lo, mid)
    requires StepsAscend(b) && StepsWithin(b, mid, hi)
    ensures StepsAscend(a + b) && StepsWithin(a + b, lo, hi)
  {
    forall i | 0 <= i < |a + b| && (a + b)[i].Execute?
      ensures lo <= (a + b)[i].query.Step() <= hi
    {
      if i < |a| {
        assert (a + b)[i] == a[i];
      } else {
        assert (a + b)[i] == b[i - |a|];
      }
    }
    forall i, j | 0 <= i < j < |a + b| && (a + b)[i].Execute? && (a + b)[j].Execute?
      ensures (a + b)[i].query.Step() <= (a + b)[j].query.Step()
    {
      if j < |a| {
        assert (a + b)[i] == a[i] && (a + b)[j] == a[j];
      } else if i < |a| {
        assert (a + b)[i] == a[i] && (a + b)[j] == b[j - |a|];
      } else {
        assert (a + b)[i] == b[i - |a|] && (a + b)[j] == b[j - |a|];
      }
    }
  }

  lemma SessionAppend(a: seq<Request>, b: seq<Request>, db: string)
    requires WithinSession(a, db) && WithinSession(b, db)
    ensures WithinSession(a + b, db)
  {
    forall i | 0 <= i < |a + b|
      ensures !(a + b)[i].Connect? && ((a + b)[i].Execute? ==> (a + b)[i].database == db)
    {
      if i < |a| {
        assert (a + b)[i] == a[i];
      } else {
        assert (a + b)[i] == b[i - |a|];
      }
    }
  }

  lemma ChecksAppend(a: seq<Request>, b: seq<Request>)
    requires ChecksBeforeCreating(a) && ChecksBeforeCreating(b)
    requires |b| > 0 ==> !IsCreation(b[0])
    ensures ChecksBeforeCreating(a + b)
  {
    forall j | 0 <= j < |a + b| && IsCreation((a + b)[j])
      ensures 0 < j && (a + b)[j - 1] == Execute((a + b)[j].database, (a + b)[j].query.CheckFor())
    {
      if j < |a| {
        assert (a + b)[j] == a[j] && (a + b)[j - 1] == a[j - 1];
      } else {
        assert (a + b)[j] == b[j - |a|];
        assert j - |a| > 0;
        assert (a + b)[j - 1] == b[j - 1 - |a|];
      }
    }
  }

  // ----- the run as pieces -----

  /** How a run without failures is laid out: two sessions, each a connection, its statements, and the two closes. */
  function Layout(adminConnect: Request, x: seq<Request>, y: seq<Request>, appConnect: Request, z: seq<Request>): seq<Request>
  {
    [adminConnect] + (x + y + [CursorClose, ConnectionClose]) + ([appConnect] + (z + [CursorClose, ConnectionClose]))
  }

  /** A session's lookups are those of its statements. */
  lemma SessionLookups(connect: Request, body: seq<Request>)
    requires connect.Connect?
    ensures Lookups([connect] + (body + [CursorClose, ConnectionClose])) == Lookups(body)
  {
    NoLookups([connect]);
    NoLookups([CursorClose, ConnectionClose]);
    LookupsAppend(body, [CursorClose, ConnectionClose]);
    LookupsAppend([connect], body + [CursorClose, ConnectionClose]);
  }

  lemma LayoutLookups(c1: Request, x: seq<Request>, y: seq<Request>, c2: Request, z: seq<Request>)
    requires c1.Connect? && c2.Connect?
    ensures Lookups(Layout(c1, x, y, c2, z)) == Lookups(x) + Lookups(y) + Lookups(z)
  {
    var closes := [CursorClose, ConnectionClose];
    SessionLookups(c1, x + y);
    SessionLookups(c2, z);
    LookupsAppend(x, y);
    LookupsAppend([c1] + (x + y + closes), [c2] + (z + closes));
  }

  /** In a layout, a statement of step 0, 1 or 2 is sent exactly when it is one of `x`, `y` or `z` respectively. */
  lemma LayoutMembers(c1: Request, x: seq<Request>, y: seq<Request>, c2: Request, z: seq<Request>,
                      dbA: string, dbB: string, r: Request)
    requires c1.Connect? && c2.Connect?
    requires ExecutesOn(x, dbA, 0) && ExecutesOn(y, dbA, 1) && ExecutesOn(z, dbB, 2)
    requires r.Execute?
    ensures r in Layout(c1, x, y, c2, z) <==>
            (r.query.Step() == 0 && r in x) || (r.query.Step() == 1 && r in y) || (r.query.Step() == 2 && r in z)
  {
    if r in x {
      var i :| 0 <= i < |x| && x[i] == r;
    }
    if r in y {
      var i :| 0 <= i < |y| && y[i] == r;
    }
    if r in z {
      var i :| 0 <= i < |z| && z[i] == r;
    }
  }

  lemma LayoutPrefix(c1: Request, x: seq<Request>, y: seq<Request>, c2: Request, z: seq<Request>)
    ensures var p := Layout(c1, x, y, c2, z);
            |p| > |x| && p[1..|x| + 1] == x
  {
    var p := Layout(c1, x, y, c2, z);
    assert p == [c1] + x + (y + [CursorClose, ConnectionClose] + ([c2] + (z + [CursorClose, ConnectionClose])));
  }

  lemma LayoutSessions(c1: Request, x: seq<Request>, y: seq<Request>, c2: Request, z: seq<Request>, dbA: string, dbB: string)
    requires c1.Connect? && c2.Connect?
    requires WithinSession(x + y, dbA) && WithinSession(z, dbB)
    ensures var p := Layout(c1, x, y, c2, z);
            var i := |x| + |y| + 3;
            && i < |p|
            && p[0] == c1 && p[i - 2] == CursorClose && p[i - 1] == ConnectionClose && p[i] == c2
            && (forall j :: 0 <= j < |p| && p[j].Connect? ==> j == 0 || j == i)
            && (forall j :: 0 <= j < i && p[j].Execute? ==> p[j].database == dbA)
            && (forall j :: i < j < |p| && p[j].Execute? ==> p[j].database == dbB)
  {
    var closes := [CursorClose, ConnectionClose];
    SessionAppend(x + y, closes, dbA);
    SessionAppend(z, closes, dbB);
    var restA := x + y + closes;
    var restB := z + closes;
    var p := Layout(c1, x, y, c2, z);
    var i := |x| + |y| + 3;
    forall j | 0 <= j < |p|
      ensures p[j].Connect? ==> j == 0 || j == i
      ensures j < i && p[j].Execute? ==> p[j].database == dbA
      ensures i < j && p[j].Execute? ==> p[j].database == dbB
    {
      if 0 < j < i {
        assert p[j] == restA[j - 1];
      } else if i < j {
        assert p[j] == restB[j - i - 1];
      }
    }
    assert p[i - 2] == restA[|restA| - 2];
    assert p[i - 1] == restA[|restA| - 1];
  }

  /** The schema loop's requests, from the shapes of its two iterations. */
  lemma SchemaLoopShape(env: Env, s0: State)
    ensures var appDb := env.appDatabase;
            var z := SchemaSteps(appDb, env.appUser, [env.keycloakSchema, env.appSchema], s0.namespaces);
            && ExecutesOn(z, appDb, 2) && ChecksBeforeCreating(z)
            && Lookups(z) == [SchemaLookup(env.keycloakSchema), SchemaLookup(env.appSchema)]
  {
    var appDb := env.appDatabase;
    var k := SchemaStage(appDb, env.appUser, env.keycloakSchema, s0.namespaces);
    var a := SchemaStage(appDb, env.appUser, env.appSchema, s0.namespaces + {(appDb, env.keycloakSchema)});
    TwoSchemas(appDb, env.appUser, env.keycloakSchema, env.appSchema, s0.namespaces);
    SchemaStageShape(appDb, env.appUser, env.keycloakSchema, s0.namespaces);
    SchemaStageShape(appDb, env.appUser, env.appSchema, s0.namespaces + {(appDb, env.keycloakSchema)});
    ExecutesOnAppend(k, a, appDb, 2);
    LookupsAppend(k, a);
    ChecksAppend(k, a);
  }

  /** A run without failures, cut at its steps and sessions. */
  lemma Pieces(env: Env, s0: State)
    returns (x: seq<Request>, y: seq<Request>, z: seq<Request>)
    ensures var adminDb := env.admin.database;
            var appDb := env.appDatabase;
            && x == RoleStage(adminDb, env.appUser, env.appPassword, s0.roles)
            && y == DatabaseStage(adminDb, appDb, env.appUser, s0.databases)
            && z == SchemaSteps(appDb, env.appUser, [env.keycloakSchema, env.appSchema], s0.namespaces)
            && Provisioning(env, s0) == Layout(Connect(env.admin), x, y, Connect(AppParams(env)), z)
            && |AdminSession(env, s0)| == |x| + |y| + 3
            && ExecutesOn(x, adminDb, 0) && Lookups(x) == [RoleLookup(env.appUser)] && ChecksBeforeCreating(x)
            && ExecutesOn(y, adminDb, 1) && Lookups(y) == [DatabaseLookup(appDb)] && ChecksBeforeCreating(y)
            && ExecutesOn(z, appDb, 2) && ChecksBeforeCreating(z)
            && Lookups(z) == [SchemaLookup(env.keycloakSchema), SchemaLookup(env.appSchema)]
  {
    var adminDb := env.admin.database;
    var appDb := env.appDatabase;
    x := RoleStage(adminDb, env.appUser, env.appPassword, s0.roles);
    y := DatabaseStage(adminDb, appDb, env.appUser, s0.databases);
    z := SchemaSteps(appDb, env.appUser, [env.keycloakSchema, env.appSchema], s0.namespaces);
    RoleStageShape(adminDb, env.appUser, env.appPassword, s0.roles);
    DatabaseStageShape(adminDb, appDb, env.appUser, s0.databases);
    SchemaLoopShape(env, s0);
  }

  // ----- properties of a run -----

  /**
   * The role step, then the database step, then the schema step: along a run,
   * no statement of an earlier step follows one of a later step. In particular
   * CREATE DATABASE comes only after every role statement.
   */
  lemma StepsInOrder(env: Env, s0: State)
    ensures StepsAscend(Provisioning(env, s0))
  {
    var x, y, z := Pieces(env, s0);
    var closes := [CursorClose, ConnectionClose];
    var c1, c2 := Connect(env.admin), Connect(AppParams(env));
    NoStatementsOrdered([c1], 0, 0);
    ExecutesOnOrdered(x, env.admin.database, 0, 0, 0);
    ExecutesOnOrdered(y, env.admin.database, 1, 0, 1);
    AscendAppend(x, y, 0, 0, 1);
    NoStatementsOrdered(closes, 1, 1);
    AscendAppend(x + y, closes, 0, 1, 1);
    AscendAppend([c1], x + y + closes, 0, 0, 1);
    NoStatementsOrdered([c2], 2, 2);
    ExecutesOnOrdered(z, env.appDatabase, 2, 2, 2);
    NoStatementsOrdered(closes, 2, 2);
    AscendAppend(z, closes, 2, 2, 2);
    AscendAppend([c2], z + closes, 2, 2, 2);
    AscendAppend([c1] + (x + y + closes), [c2] + (z + closes), 0, 1, 2);
  }

  /**
   * The session switch: the administrator session is closed (cursor, then
   * connection) right before the application session is opened as the
   * application role on the application database; the run connects nowhere
   * else, and every statement runs on the database of its session.
   */
  lemma SessionSwitch(env: Env, s0: State)
    ensures var p := Provisioning(env, s0);
            var i := |AdminSession(env, s0)|;
            && 5 <= i < |p|
            && p[0] == Connect(env.admin)
            && p[i - 2] == CursorClose && p[i - 1] == ConnectionClose
            && p[i] == Connect(AppParams(env))
            && p[i].params.user == env.appUser && p[i].params.database == env.appDatabase
            && (forall j :: 0 <= j < |p| && p[j].Connect? ==> j == 0 || j == i)
            && (forall j :: 0 <= j < i && p[j].Execute? ==> p[j].database == env.admin.database)
            && (forall j :: i < j < |p| && p[j].Execute? ==> p[j].database == env.appDatabase)
  {
    var x, y, z := Pieces(env, s0);
    ExecutesOnOrdered(x, env.admin.database, 0, 0, 0);
    ExecutesOnOrdered(y, env.admin.database, 1, 1, 1);
    SessionAppend(x, y, env.admin.database);
    ExecutesOnOrdered(z, env.appDatabase, 2, 2, 2);
    LayoutSessions(Connect(env.admin), x, y, Connect(AppParams(env)), z, env.admin.database, env.appDatabase);
    assert |x| >= 1 && |y| >= 1 by {
      assert Lookups(x) != [] && Lookups(y) != [];
    }
  }

  /**
   * The role step: the six statements run, in list order and right after the
   * pg_roles lookup, exactly when the role is missing; when it exists the
   * lookup is the only role statement.
   */
  lemma RoleStatementsIffMissing(env: Env, s0: State)
    ensures var p := Provisioning(env, s0);
            var adminDb := env.admin.database;
            && (Execute(adminDb, CreateRole(env.appUser, env.appPassword)) in p <==> env.appUser !in s0.roles)
            && (env.appUser !in s0.roles ==>
                  |p| >= 8 && p[1..8] == [Execute(adminDb, RoleLookup(env.appUser))]
                                          + Executions(adminDb, RoleSetup(env.appUser, env.appPassword)))
            && (env.appUser in s0.roles ==>
                  forall r :: r in p && r.Execute? && r.query.Step() == 0 ==> r == Execute(adminDb, RoleLookup(env.appUser)))
  {
    var x, y, z := Pieces(env, s0);
    var adminDb := env.admin.database;
    var c1, c2 := Connect(env.admin), Connect(AppParams(env));
    RoleSetupShape(adminDb, env.appUser, env.appPassword);
    var created := Execute(adminDb, CreateRole(env.appUser, env.appPassword));
    LayoutMembers(c1, x, y, c2, z, adminDb, env.appDatabase, created);
    if env.appUser !in s0.roles {
      LayoutPrefix(c1, x, y, c2, z);
      assert x[1] == created;
    } else {
      forall r | r in Provisioning(env, s0) && r.Execute? && r.query.Step() == 0
        ensures r == Execute(adminDb, RoleLookup(env.appUser))
      {
        LayoutMembers(c1, x, y, c2, z, adminDb, env.appDatabase, r);
      }
    }
  }

  /**
   * The database step: CREATE DATABASE, owned by the application role, runs
   * exactly when the pg_database lookup finds no row, and no other database is
   * created.
   */
  lemma DatabaseCreatedIffMissing(env: Env, s0: State)
    ensures var p := Provisioning(env, s0);
            var created := Execute(env.admin.database, CreateDatabase(env.appDatabase, env.appUser));
            && (created in p <==> env.appDatabase !in s0.databases)
            && (forall r :: r in p && r.Execute? && r.query.CreateDatabase? ==> r == created)
  {
    var x, y, z := Pieces(env, s0);
    var p := Provisioning(env, s0);
    var adminDb := env.admin.database;
    var c1, c2 := Connect(env.admin), Connect(AppParams(env));
    var created := Execute(adminDb, CreateDatabase(env.appDatabase, env.appUser));
    var lookup := Execute(adminDb, DatabaseLookup(env.appDatabase));
    assert y == [lookup] + (if env.appDatabase in s0.databases then [] else [created]);
    LayoutMembers(c1, x, y, c2, z, adminDb, env.appDatabase, created);
    assert created in p <==> created in y;
    forall r | r in p && r.Execute? && r.query.CreateDatabase?
      ensures r == created
    {
      LayoutMembers(c1, x, y, c2, z, adminDb, env.appDatabase, r);
      assert r in y;
    }
  }

  /**
   * The schema step: CREATE SCHEMA ... AUTHORIZATION the application role runs
   * for `schema` exactly when it is one of the two names and its pg_namespace
   * lookup on the application database finds no row.
   */
  lemma SchemaCreatedIffMissing(env: Env, s0: State, schema: string)
    ensures Execute(env.appDatabase, CreateSchema(schema, env.appUser)) in Provisioning(env, s0) <==>
            (schema == env.keycloakSchema || schema == env.appSchema) && (env.appDatabase, schema) !in s0.namespaces
  {
    var x, y, z := Pieces(env, s0);
    var appDb := env.appDatabase;
    var created := Execute(appDb, CreateSchema(schema, env.appUser));
    LayoutMembers(Connect(env.admin), x, y, Connect(AppParams(env)), z, env.admin.database, appDb, created);
    TwoSchemas(appDb, env.appUser, env.keycloakSchema, env.appSchema, s0.namespaces);
    SchemaIterationCreates(appDb, env.appUser, env.keycloakSchema, s0.namespaces, schema);
    SchemaIterationCreates(appDb, env.appUser, env.appSchema, s0.namespaces + {(appDb, env.keycloakSchema)}, schema);
  }

  lemma SchemaIterationCreates(db: string, owner: string, name: string, ns: set<(string, string)>, schema: string)
    ensures Execute(db, CreateSchema(schema, owner)) in SchemaStage(db, owner, name, ns) <==>
            schema == name && (db, name) !in ns
  {
  }

  /**
   * The checks a run makes, whatever the catalog holds: the role, the
   * database, then the keycloak schema and the application schema.
   */
  lemma LookupsInOrder(env: Env, s0: State)
    ensures Lookups(Provisioning(env, s0)) ==
            [RoleLookup(env.appUser), DatabaseLookup(env.appDatabase),
             SchemaLookup(env.keycloakSchema), SchemaLookup(env.appSchema)]
  {
    var x, y, z := Pieces(env, s0);
    LayoutLookups(Connect(env.admin), x, y, Connect(AppParams(env)), z);
  }

  /** Check then create: every creation in a run comes right after the lookup that found the name missing. */
  lemma CreationsFollowTheirCheck(env: Env, s0: State)
    ensures ChecksBeforeCreating(Provisioning(env, s0))
  {
    var x, y, z := Pieces(env, s0);
    var closes := [CursorClose, ConnectionClose];
    var c1, c2 := Connect(env.admin), Connect(AppParams(env));
    ChecksAppend(x, y);
    ChecksAppend(x + y, closes);
    ChecksAppend([c1], x + y + closes);
    ChecksAppend(z, closes);
    ChecksAppend([c2], z + closes);
    ChecksAppend([c1] + (x + y + closes), [c2] + (z + closes));
  }

  // ----- the catalog after a run -----

  lemma ApplyOne(s: State, r: Request)
    ensures Apply(s, [r]) == Effect(s, r)
  {
    assert [r][..0] == [];
  }

  lemma {:induction false} ApplyWithoutCreations(s: State, t: seq<Request>)
    requires forall i :: 0 <= i < |t| ==> !IsCreation(t[i])
    ensures Apply(s, t) == s
    decreases |t|
  {
    if t != [] {
      ApplyWithoutCreations(s, t[..|t| - 1]);
    }
  }

  lemma RoleStageEffect(s: State, db: string, role: string, password: string)
    ensures Apply(s, RoleStage(db, role, password, s.roles)) == s.(roles := s.roles + {role})
  {
    var lookup := Execute(db, RoleLookup(role));
    ApplyOne(s, lookup);
    if role in s.roles {
      assert s.roles + {role} == s.roles;
    } else {
      var t := Executions(db, RoleSetup(role, password));
      RoleSetupShape(db, role, password);
      assert RoleStage(db, role, password, s.roles) == [lookup] + [t[0]] + t[1..];
      ApplyAppend(s, [lookup] + [t[0]], t[1..]);
      ApplyAppend(s, [lookup], [t[0]]);
      ApplyOne(s, t[0]);
      ApplyWithoutCreations(s.(roles := s.roles + {role}), t[1..]);
    }
  }

  lemma DatabaseStageEffect(s: State, db: string, name: string, owner: string)
    ensures Apply(s, DatabaseStage(db, name, owner, s.databases)) == s.(databases := s.databases + {name})
  {
    var lookup := Execute(db, DatabaseLookup(name));
    ApplyOne(s, lookup);
    if name in s.databases {
      assert s.databases + {name} == s.databases;
    } else {
      var create := Execute(db, CreateDatabase(name, owner));
      ApplyAppend(s, [lookup], [create]);
      ApplyOne(s, create);
    }
  }

  lemma SchemaStageEffect(s: State, db: string, owner: string, name: string)
    ensures Apply(s, SchemaStage(db, owner, name, s.namespaces)) == s.(namespaces := s.namespaces + {(db, name)})
  {
    var lookup := Execute(db, SchemaLookup(name));
    ApplyOne(s, lookup);
    if (db, name) in s.namespaces {
      assert s.namespaces + {(db, name)} == s.namespaces;
    } else {
      var create := Execute(db, CreateSchema(name, owner));
      ApplyAppend(s, [lookup], [create]);
      ApplyOne(s, create);
    }
  }

  /** Connecting and closing leave the catalog as it is. */
  lemma SessionEffect(s: State, connect: Request, body: seq<Request>)
    requires connect.Connect?
    ensures Apply(s, [connect] + (body + [CursorClose, ConnectionClose])) == Apply(s, body)
  {
    var closes := [CursorClose, ConnectionClose];
    ApplyWithoutCreations(s, [connect]);
    ApplyWithoutCreations(Apply(s, body), closes);
    ApplyAppend(s, [connect], body + closes);
    ApplyAppend(s, body, closes);
  }

  /** The statements of a run take effect in order. */
  lemma LayoutEffect(s: State, c1: Request, x: seq<Request>, y: seq<Request>, c2: Request, z: seq<Request>)
    requires c1.Connect? && c2.Connect?
    ensures Apply(s, Layout(c1, x, y, c2, z)) == Apply(Apply(Apply(s, x), y), z)
  {
    var closes := [CursorClose, ConnectionClose];
    SessionEffect(s, c1, x + y);
    ApplyAppend(s, x, y);
    SessionEffect(Apply(Apply(s, x), y), c2, z);
    ApplyAppend(s, [c1] + (x + y + closes), [c2] + (z + closes));
  }

  /**
   * A run without failures leaves the role, the database and both schemas in
   * the catalog, and nothing else added.
   */
  lemma ProvisionedCatalog(env: Env, s0: State)
    ensures Apply(s0, Provisioning(env, s0)) ==
            State(s0.roles + {env.appUser}, s0.databases + {env.appDatabase},
                  s0.namespaces + {(env.appDatabase, env.keycloakSchema), (env.appDatabase, env.appSchema)})
  {
    var x, y, z := Pieces(env, s0);
    var adminDb := env.admin.database;
    var appDb := env.appDatabase;
    LayoutEffect(s0, Connect(env.admin), x, y, Connect(AppParams(env)), z);
    RoleStageEffect(s0, adminDb, env.appUser, env.appPassword);
    var s1 := s0.(roles := s0.roles + {env.appUser});
    DatabaseStageEffect(s1, adminDb, appDb, env.appUser);
    var s2 := s1.(databases := s1.databases + {appDb});
    TwoSchemas(appDb, env.appUser, env.keycloakSchema, env.appSchema, s0.namespaces);
    var k := SchemaStage(appDb, env.appUser, env.keycloakSchema, s0.namespaces);
    var a := SchemaStage(appDb, env.appUser, env.appSchema, s0.namespaces + {(appDb, env.keycloakSchema)});
    ApplyAppend(s2, k, a);
    SchemaStageEffect(s2, appDb, env.appUser, env.keycloakSchema);
    var s3 := s2.(namespaces := s2.namespaces + {(appDb, env.keycloakSchema)});
    SchemaStageEffect(s3, appDb, env.appUser, env.appSchema);
  }

  /**
   * Running again after a run without failures only checks: every statement
   * of the second run is a lookup, and the catalog stays as it was.
   */
  lemma SecondRunOnlyChecks(env: Env, s0: State)
    ensures var s1 := Apply(s0, Provisioning(env, s0));
            && (forall r :: r in Provisioning(env, s1) && r.Execute? ==> r.query.IsLookup())
            && Apply(s1, Provisioning(env, s1)) == s1
  {
    ProvisionedCatalog(env, s0);
    var s1 := Apply(s0, Provisioning(env, s0));
    ProvisionedCatalog(env, s1);
    assert s1.roles + {env.appUser} == s1.roles;
    assert s1.databases + {env.appDatabase} == s1.databases;
    assert s1.namespaces + {(env.appDatabase, env.keycloakSchema), (env.appDatabase, env.appSchema)} == s1.namespaces;
    var x, y, z := Pieces(env, s1);
    TwoSchemas(env.appDatabase, env.appUser, env.keycloakSchema, env.appSchema, s1.namespaces);
    forall r | r in Provisioning(env, s1) && r.Execute?
      ensures r.query.IsLookup()
    {
      LayoutMembers(Connect(env.admin), x, y, Connect(AppParams(env)), z, env.admin.database, env.appDatabase, r);
    }
  }

  // ----- failures -----

  /**
   * A run that raises ends its log with the request that raised, a connect
   * or a statement: nothing after it is sent, in particular no close.
   */
  lemma RaisedEndsWithTheFailure(s: Snapshot, t: seq<Request>, rejects: Request -> bool)
    ensures var result := Run(s, t, rejects);
            result.outcome.Raised? ==>
              && |result.after.log| > |s.log|
              && result.after.log[|result.after.log| - 1] == result.outcome.error
              && Fails(result.outcome.error, rejects)
              && (result.outcome.error.Connect? || result.outcome.error.Execute?)
  {
    RunSendsUpToFirstFailure(s, t, rejects);
  }
}
