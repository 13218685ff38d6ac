/**
 * The Keycloak provisioning of database_keycloak_setup/keycloak_setup.py.
 *
 * KeycloakClient obtains an admin token, then makes sure the application
 * realm, its client, its admin group (whose id it remembers), the group's
 * realm and client role mappings, the application admin user and the user's
 * group membership exist, in that order. Each step lists what exists, decides,
 * and creates what is missing.
 *
 * The Keycloak server is a `Server` object: the entities of the application
 * realm (`state`) and the requests it has received (`log`). The server's reply
 * to each request is an input (`answer`, given the request's position in the
 * log); a creation changes the state only when the reply is 201 Created.
 */
module Keycloak {
  import opened Outcomes

  /** The values KeycloakConfig reads from the environment. */
  datatype Config = Config(
    url: string, adminUser: string, adminPassword: string,
    realm: string, clientName: string, groupName: string,
    appAdminUser: string, appAdminPassword: string, appAdminEmail: string)

  datatype Group = Group(name: string, id: string)
  datatype User = User(id: string, username: string)

  /** An entry of the available realm roles listing (only the fields the client reads). */
  datatype RealmRole = RealmRole(id: string, name: string, description: string)

  /** An entry of the ui-ext available client roles listing: the client role is under `role`. */
  datatype ClientRole = ClientRole(id: string, role: string, description: string, clientId: string)

  /** A role representation as sent in a role-mapping body: exactly id, name and description. */
  datatype RoleRep = RoleRep(id: string, name: string, description: string)

  /** A client role waiting to be assigned: the role, still carrying its client's id. */
  datatype PendingClientRole = PendingClientRole(id: string, name: string, description: string, clientId: string)

  /** A user waiting to be added to the group. */
  datatype UserRef = UserRef(id: string, username: string)

  datatype RealmRep = RealmRep(realm: string, enabled: bool)
  datatype ClientRep = ClientRep(clientId: string, enabled: bool, redirectUris: seq<string>)
  datatype Credential = Credential(kind: string, value: string, temporary: bool)
  datatype UserRep = UserRep(username: string, enabled: bool, email: string, emailVerified: bool,
                             credentials: seq<Credential>)

  /** The requests the client sends (method, path and body; the bearer header is not modelled). */
  datatype Request =
    | TokenGrant(grantType: string, clientId: string, username: string, password: string)
    | ListRealms
    | CreateRealm(body: RealmRep)
    | ListClients(realm: string)
    | CreateClient(realm: string, client: ClientRep)
    | ListGroups(realm: string)
    | CreateGroup(realm: string, name: string)
    | ListAvailableRealmRoles(realm: string, group: Option<string>, first: nat, max: nat)
    | ListAvailableClientRoles(realm: string, group: Option<string>, first: nat, max: nat)
    | AssignRealmRoles(realm: string, group: Option<string>, roles: seq<RoleRep>)
    | AssignClientRoles(realm: string, group: Option<string>, clientUuid: string, roles: seq<RoleRep>)
    | ListUsers(realm: string)
    | CreateUser(realm: string, user: UserRep)
    | ListUserPage(realm: string, first: nat, max: nat)
    | AddToGroup(realm: string, userId: string, group: Option<string>)
  {
    /** The step of the script that sends the request, 0 (token) to 6 (group membership). */
    function Phase(): nat
    {
      match this
      case TokenGrant(_, _, _, _) => 0
      case ListRealms => 1
      case CreateRealm(_) => 1
      case ListClients(_) => 2
      case CreateClient(_, _) => 2
      case ListGroups(_) => 3
      case CreateGroup(_, _) => 3
      case ListAvailableRealmRoles(_, _, _, _) => 4
      case ListAvailableClientRoles(_, _, _, _) => 4
      case AssignRealmRoles(_, _, _) => 4
      case AssignClientRoles(_, _, _, _) => 4
      case ListUsers(_) => 5
      case CreateUser(_, _) => 5
      case ListUserPage(_, _, _) => 6
      case AddToGroup(_, _, _) => 6
    }

    predicate IsCreation()
    {
      CreateRealm? || CreateClient? || CreateGroup? || CreateUser?
    }
  }

  /** The server's reply: the status code, the body's access_token (token grants), and the id of what it created. */
  datatype Reply = Reply(status: int, token: Option<string>, newId: string)

  /** The listings whose failure raises, and the message each raises with. */
  datatype Listing = Realms | Clients | Groups | AvailableRealmRoles | AvailableClientRoles | UserPage
  {
    /** The text before the status code; the user listing reuses the realm roles text. */
    function Message(): string
    {
      match this
      case Realms => "Failed to retrieve realms."
      case Clients => "Failed to retrieve clients."
      case Groups => "Failed to retrieve groups."
      case AvailableRealmRoles => "Failed to retrieve realm roles."
      case AvailableClientRoles => "Failed to retrieve client roles."
      case UserPage => "Failed to retrieve realm roles."
    }

    function Phase(): nat
    {
      match this
      case Realms => 1
      case Clients => 2
      case Groups => 3
      case AvailableRealmRoles => 4
      case AvailableClientRoles => 4
      case UserPage => 6
    }
  }

  /** Why a step raised: a listing answered other than 200, or the token reply had no access_token. */
  datatype Failure = ListingFailed(listing: Listing, status: int) | NoAccessToken
  {
    function Phase(): nat
    {
      match this
      case ListingFailed(listing, _) => listing.Phase()
      case NoAccessToken => 0
    }
  }

  /** The entities of the application realm, in listing order; `realms` lists all realm names. */
  datatype State = State(
    realms: seq<string>, clients: seq<string>, groups: seq<Group>, users: seq<User>,
    availableRealmRoles: seq<RealmRole>, availableClientRoles: seq<ClientRole>)

  /** Whether the server did what `r` asked: 201 Created for a creation. */
  predicate Created(r: Request, status: int)
  {
    r.IsCreation() && status == 201
  }

  /** The state after the server created what `r` asks for, the new entity getting id `newId`. */
  function Effect(s: State, r: Request, newId: string): State
    requires r.IsCreation()
  {
    match r
    case CreateRealm(body) => s.(realms := s.realms + [body.realm])
    case CreateClient(_, client) => s.(clients := s.clients + [client.clientId])
    case CreateGroup(_, name) => s.(groups := s.groups + [Group(name, newId)])
    case CreateUser(_, user) => s.(users := s.users + [User(newId, user.username)])
  }

  /** The entries a paged listing returns: at most `max` of them, from position `first`. */
  function Page<T>(entries: seq<T>, first: nat, max: nat): seq<T>
  {
    if first >= |entries| then [] else if first + max <= |entries| then entries[first..first + max] else entries[first..]
  }

  /** A page holds the `max` entries from `first` on, or all that are left when fewer are. */
  lemma PageShape<T>(entries: seq<T>, first: nat, max: nat)
    ensures |Page(entries, first, max)| <= max
    ensures first <= |entries| ==>
              |Page(entries, first, max)| == if first + max <= |entries| then max else |entries| - first
    ensures forall i :: 0 <= i < |Page(entries, first, max)| ==>
              first + i < |entries| && Page(entries, first, max)[i] == entries[first + i]
  {
  }

  /** The Keycloak server: the application realm's entities and the requests received. */
  class Server {
    var state: State
    var log: seq<Request>

    constructor (initial: State)
      ensures state == initial && log == []
    {
      state := initial;
      log := [];
    }

    /** Receives `r`; the reply is the one `answer` gives at this position of the log. */
    method Send(r: Request, answer: (nat, Request) -> Reply) returns (reply: Reply)
      modifies this
      ensures reply == answer(|old(log)|, r)
      ensures log == old(log) + [r]
      ensures state == if Created(r, reply.status) then Effect(old(state), r, reply.newId) else old(state)
    {
      reply := answer(|log|, r);
      log := log + [r];
      if Created(r, reply.status) {
        state := Effect(state, r, reply.newId);
      }
    }
  }

  // ----- the decisions, on the listings -----

  /**
   * `next(realm for realm in realms if realm["realm"] == name, None)`: the
   * position of the first realm with that name, if any.
   */
  function FirstNamed(realms: seq<string>, name: string): (found: Option<nat>)
    ensures found.None? <==> name !in realms
    ensures found.Some? ==> found.value < |realms| && realms[found.value] == name
                            && forall j :: 0 <= j < found.value ==> realms[j] != name
    decreases |realms|
  {
    if realms == [] then None
    else if realms[0] == name then Some(0)
    else match FirstNamed(realms[1..], name)
      case None => None
      case Some(i) => Some(i + 1)
  }

  /** The `for client in clients` loop of create_client: whether some client has the clientId. */
  method ClientListed(clients: seq<string>, clientName: string) returns (listed: bool)
    ensures listed <==> clientName in clients
  {
    listed := false;
    var i := 0;
    while i < |clients|
      invariant 0 <= i <= |clients|
      invariant listed <==> clientName in clients[..i]
    {
      assert clients[..i + 1] == clients[..i] + [clients[i]];
      if clients[i] == clientName {
        listed := true;
      }
      i := i + 1;
    }
    assert clients[..i] == clients;
  }

  /** The position of the last group named `name`, if any. */
  function LastNamed(groups: seq<Group>, name: string): (found: Option<nat>)
    ensures found.None? <==> forall j :: 0 <= j < |groups| ==> groups[j].name != name
    ensures found.Some? ==> found.value < |groups| && groups[found.value].name == name
                            && forall j :: found.value < j < |groups| ==> groups[j].name != name
    decreases |groups|
  {
    if groups == [] then None
    else if groups[|groups| - 1].name == name then Some(|groups| - 1)
    else LastNamed(groups[..|groups| - 1], name)
  }

  /** The `for user in users` loop of create_user: stops at the first user with the username. */
  method UserListed(users: seq<User>, username: string) returns (listed: bool)
    ensures listed <==> UserNamed(users, username)
  {
    var i := 0;
    while i < |users|
      invariant 0 <= i <= |users|
      invariant forall j :: 0 <= j < i ==> users[j].username != username
    {
      if users[i].username == username {
        return true;
      }
      i := i + 1;
    }
    return false;
  }

  /** The realm roles loop: each available realm role, reduced to id, name and description, in listing order. */
  method CollectRealmRoles(roles: seq<RealmRole>) returns (toAssign: seq<RoleRep>)
    ensures toAssign == RealmRoleBodies(roles)
  {
    toAssign := [];
    for i := 0 to |roles|
      invariant |toAssign| == i
      invariant forall j :: 0 <= j < i ==> toAssign[j] == RoleRep(roles[j].id, roles[j].name, roles[j].description)
    {
      toAssign := toAssign + [RoleRep(roles[i].id, roles[i].name, roles[i].description)];
    }
    assert toAssign == RealmRoleBodies(roles);
  }

  /** The client roles loop: each available client role, named after its `role` field and keeping its client's id. */
  method CollectClientRoles(roles: seq<ClientRole>) returns (toAssign: seq<PendingClientRole>)
    ensures toAssign == PendingClientRoles(roles)
  {
    toAssign := [];
    for i := 0 to |roles|
      invariant |toAssign| == i
      invariant forall j :: 0 <= j < i ==>
                  toAssign[j] == PendingClientRole(roles[j].id, roles[j].role, roles[j].description, roles[j].clientId)
    {
      toAssign := toAssign + [PendingClientRole(roles[i].id, roles[i].role, roles[i].description, roles[i].clientId)];
    }
    assert toAssign == PendingClientRoles(roles);
  }

  /** The users loop of add_user_to_group: every listed user, whatever its name. */
  method CollectUsers(users: seq<User>) returns (toAdd: seq<UserRef>)
    ensures toAdd == UserRefs(users)
  {
    toAdd := [];
    for i := 0 to |users|
      invariant |toAdd| == i
      invariant forall j :: 0 <= j < i ==> toAdd[j] == UserRef(users[j].id, users[j].username)
    {
      toAdd := toAdd + [UserRef(users[i].id, users[i].username)];
    }
    assert toAdd == UserRefs(users);
  }

  /** `client_role.pop("client_id")`: the client's id, and the role as it is then sent. */
  function PopClientId(pending: PendingClientRole): (string, RoleRep)
  {
    (pending.clientId, RoleRep(pending.id, pending.name, pending.description))
  }

  /** The realm role bodies: each listed role reduced to id, name and description, in listing order. */
  function RealmRoleBodies(roles: seq<RealmRole>): seq<RoleRep>
  {
    seq(|roles|, i requires 0 <= i < |roles| => RoleRep(roles[i].id, roles[i].name, roles[i].description))
  }

  /** The client roles waiting to be assigned, one per listed client role, in listing order. */
  function PendingClientRoles(roles: seq<ClientRole>): seq<PendingClientRole>
  {
    seq(|roles|, i requires 0 <= i < |roles| =>
      PendingClientRole(roles[i].id, roles[i].role, roles[i].description, roles[i].clientId))
  }

  /** The users waiting to be added to the group, one per listed user, in listing order. */
  function UserRefs(users: seq<User>): seq<UserRef>
  {
    seq(|users|, i requires 0 <= i < |users| => UserRef(users[i].id, users[i].username))
  }

  /** Whether some user has the username. */
  predicate UserNamed(users: seq<User>, username: string)
  {
    exists j :: 0 <= j < |users| && users[j].username == username
  }

  /** The one bulk realm role mapping, sent only when there are roles to assign. */
  function RealmRoleMapping(realm: string, group: Option<string>, bodies: seq<RoleRep>): seq<Request>
  {
    if bodies == [] then [] else [AssignRealmRoles(realm, group, bodies)]
  }

  /** One client role mapping per pending role, in order, each a one-element body sent under its client. */
  function ClientRoleMappings(realm: string, group: Option<string>, pending: seq<PendingClientRole>): seq<Request>
    decreases |pending|
  {
    if pending == [] then []
    else
      var (client, role) := PopClientId(pending[0]);
      [AssignClientRoles(realm, group, client, [role])] + ClientRoleMappings(realm, group, pending[1..])
  }

  /**
   * The client role mappings are one request per pending role, in order: the
   * role, without its client's id, alone in the body sent under its client.
   */
  lemma {:induction false} ClientRoleMappingsShape(realm: string, group: Option<string>, pending: seq<PendingClientRole>)
    ensures |ClientRoleMappings(realm, group, pending)| == |pending|
    ensures forall i :: 0 <= i < |pending| ==>
              ClientRoleMappings(realm, group, pending)[i]
                == AssignClientRoles(realm, group, pending[i].clientId,
                                     [RoleRep(pending[i].id, pending[i].name, pending[i].description)])
    decreases |pending|
  {
    if pending != [] {
      ClientRoleMappingsShape(realm, group, pending[1..]);
      forall i | 1 <= i < |pending|
        ensures ClientRoleMappings(realm, group, pending)[i] == ClientRoleMappings(realm, group, pending[1..])[i - 1]
      {
      }
    }
  }

  /** One membership PUT per user, in order. */
  function Memberships(realm: string, users: seq<UserRef>, group: Option<string>): seq<Request>
    decreases |users|
  {
    if users == [] then [] else [AddToGroup(realm, users[0].id, group)] + Memberships(realm, users[1..], group)
  }

  /** The memberships are one PUT per user, in order, each to the same group. */
  lemma {:induction false} MembershipsShape(realm: string, users: seq<UserRef>, group: Option<string>)
    ensures |Memberships(realm, users, group)| == |users|
    ensures forall i :: 0 <= i < |users| ==> Memberships(realm, users, group)[i] == AddToGroup(realm, users[i].id, group)
    decreases |users|
  {
    if users != [] {
      MembershipsShape(realm, users[1..], group);
      forall i | 1 <= i < |users|
        ensures Memberships(realm, users, group)[i] == Memberships(realm, users[1..], group)[i - 1]
      {
      }
    }
  }

  /** The bodies the client sends. */
  function NewRealm(config: Config): RealmRep
  {
    RealmRep(config.realm, true)
  }

  function NewClient(config: Config): ClientRep
  {
    ClientRep(config.clientName, true, ["http://localhost:8080/*"])
  }

  function NewUser(config: Config): UserRep
  {
    UserRep(config.appAdminUser, true, config.appAdminEmail, true,
            [Credential("password", config.appAdminPassword, false)])
  }

  /** A listing answered other than 200 raises; the caller cannot go past it. */
  function Refused(listing: Listing, status: int): Option<Failure>
  {
    if status == 200 then None else Some(ListingFailed(listing, status))
  }

  /**
   * The failure a reply to `r` raises, if any: a token reply without an
   * access_token, or a failed listing, except the user listing of
   * create_user, which falls through to creating the user.
   */
  function Raises(r: Request, reply: Reply): Option<Failure>
  {
    match r
    case TokenGrant(_, _, _, _) => if reply.token.None? then Some(NoAccessToken) else None
    case ListRealms => Refused(Realms, reply.status)
    case ListClients(_) => Refused(Clients, reply.status)
    case ListGroups(_) => Refused(Groups, reply.status)
    case ListAvailableRealmRoles(_, _, _, _) => Refused(AvailableRealmRoles, reply.status)
    case ListAvailableClientRoles(_, _, _, _) => Refused(AvailableClientRoles, reply.status)
    case ListUserPage(_, _, _) => Refused(UserPage, reply.status)
    case _ => None
  }

  /**
   * From position `n` on, `log` went on while the replies allowed it: no
   * request before the last one raised, and the outcome is the last
   * request's failure if it has one, and a normal return otherwise.
   */
  ghost predicate StopsAtFailure(log: seq<Request>, n: nat, answer: (nat, Request) -> Reply, outcome: Outcome<Failure>)
  {
    && n <= |log|
    && (forall i :: n <= i < |log| - 1 ==> Raises(log[i], answer(i, log[i])).None?)
    && (outcome.Raised? <==> n < |log| && Raises(log[|log| - 1], answer(|log| - 1, log[|log| - 1])).Some?)
    && (outcome.Raised? ==> Raises(log[|log| - 1], answer(|log| - 1, log[|log| - 1])) == Some(outcome.error))
  }

  /** Every request of `log` from position `n` on belongs to step `phase`. */
  ghost predicate InPhase(log: seq<Request>, n: nat, phase: nat)
  {
    forall i :: n <= i < |log| ==> log[i].Phase() == phase
  }

  /** From position `n` on, no request of `log` belongs to a step after `phase`. */
  ghost predicate PhasesAtMost(log: seq<Request>, n: nat, phase: nat)
  {
    forall i :: n <= i < |log| ==> log[i].Phase() <= phase
  }

  /** From position `n` on, the steps of `log` never go back. */
  ghost predicate PhasesAscend(log: seq<Request>, n: nat)
  {
    forall i, j :: n <= i < j < |log| ==> log[i].Phase() <= log[j].Phase()
  }

  /** Sending `r`, whose reply does not raise, extends a log that went on. */
  lemma Sent(log: seq<Request>, n: nat, answer: (nat, Request) -> Reply, r: Request, phase: nat)
    requires StopsAtFailure(log, n, answer, Returned) && InPhase(log, n, phase)
    requires Raises(r, answer(|log|, r)).None? && r.Phase() == phase
    ensures StopsAtFailure(log + [r], n, answer, Returned) && InPhase(log + [r], n, phase)
  {
    assert forall i :: n <= i < |log| ==> (log + [r])[i] == log[i];
  }

  /** Sending `r`, whose reply raises, ends a log that went on with that failure. */
  lemma SentAndRaised(log: seq<Request>, n: nat, answer: (nat, Request) -> Reply, r: Request, phase: nat)
    requires StopsAtFailure(log, n, answer, Returned) && InPhase(log, n, phase)
    requires Raises(r, answer(|log|, r)).Some? && r.Phase() == phase
    ensures StopsAtFailure(log + [r], n, answer, Raised(Raises(r, answer(|log|, r)).value))
    ensures InPhase(log + [r], n, phase)
  {
    assert forall i :: n <= i < |log| ==> (log + [r])[i] == log[i];
  }




  // ----- the steps, as functions of the server's state and replies -----

  /** What the client keeps between steps: the access token and the admin group's id. */
  datatype Session = Session(token: Option<string>, groupId: Option<string>)

  /** What a step, or a run of steps, does: the requests it sends, the state and session it leaves, its outcome. */
  datatype Run = Run(sent: seq<Request>, state: State, session: Session, outcome: Outcome<Failure>)

  /** `a`, and then `b` when `a` returned. */
  function AndThen(a: Run, b: Run): Run
  {
    if a.outcome.Raised? then a else Run(a.sent + b.sent, b.state, b.session, b.outcome)
  }

  /** The state after `create` was answered with `reply`: only a 201 adds the entity. */
  function AfterCreate(s: State, create: Request, reply: Reply): State
    requires create.IsCreation()
  {
    if Created(create, reply.status) then Effect(s, create, reply.newId) else s
  }

  /**
   * get_access_token, from log position `n`: the password grant for
   * admin-cli; a reply with an access_token has it kept, one without raises.
   */
  function TokenRun(config: Config, s: State, n: nat, answer: (nat, Request) -> Reply, k: Session): Run
  {
    var grant := TokenGrant("password", "admin-cli", config.adminUser, config.adminPassword);
    var token := answer(n, grant).token;
    if token.Some? then Run([grant], s, k.(token := token), Returned) else Run([grant], s, k, Raised(NoAccessToken))
  }

  /**
   * create_realm and create_client, from log position `n`: a listing
   * answered other than 200 raises; otherwise `create` is sent exactly when
   * the entity is not `present`, whatever its reply.
   */
  function ListThenCreate(s: State, n: nat, answer: (nat, Request) -> Reply, k: Session,
                          list: Request, listing: Listing, create: Request, present: bool): Run
    requires create.IsCreation()
  {
    var status := answer(n, list).status;
    if status != 200 then Run([list], s, k, Raised(ListingFailed(listing, status)))
    else if present then Run([list], s, k, Returned)
    else Run([list, create], AfterCreate(s, create, answer(n + 1, create)), k, Returned)
  }

  /** create_realm: the realm is created, enabled, when no listed realm has its name. */
  function RealmRun(config: Config, s: State, n: nat, answer: (nat, Request) -> Reply, k: Session): Run
  {
    ListThenCreate(s, n, answer, k, ListRealms, Realms, CreateRealm(NewRealm(config)), config.realm in s.realms)
  }

  /** create_client: the client is created when no listed client has its clientId. */
  function ClientRun(config: Config, s: State, n: nat, answer: (nat, Request) -> Reply, k: Session): Run
  {
    ListThenCreate(s, n, answer, k, ListClients(config.realm), Clients, CreateClient(config.realm, NewClient(config)),
                   config.clientName in s.clients)
  }

  /**
   * check_group_exists, from log position `n`: a listing answered other
   * than 200 raises; otherwise the id of the last group with the name is
   * kept, and with none the kept id stays as it was.
   */
  function CheckRun(config: Config, s: State, n: nat, answer: (nat, Request) -> Reply, k: Session): Run
  {
    var list := ListGroups(config.realm);
    var status := answer(n, list).status;
    var found := LastNamed(s.groups, config.groupName);
    if status != 200 then Run([list], s, k, Raised(ListingFailed(Groups, status)))
    else if found.Some? then Run([list], s, k.(groupId := Some(s.groups[found.value].id)), Returned)
    else Run([list], s, k, Returned)
  }

  /**
   * create_group, from log position `n`: the group is checked; a missing
   * one is created, and only after a 201 is it checked again.
   */
  function GroupRun(config: Config, s: State, n: nat, answer: (nat, Request) -> Reply, k: Session): Run
  {
    var check := CheckRun(config, s, n, answer, k);
    var create := CreateGroup(config.realm, config.groupName);
    var created := answer(n + 1, create);
    if check.outcome.Raised? || LastNamed(s.groups, config.groupName).Some? then check
    else if created.status != 201 then Run(check.sent + [create], s, k, Returned)
    else
      var recheck := CheckRun(config, Effect(s, create, created.newId), n + 2, answer, k);
      Run(check.sent + [create] + recheck.sent, recheck.state, recheck.session, recheck.outcome)
  }

  /**
   * assign_admin_roles_to_group, from log position `n`: the two listings of
   * what the kept group may still get, then the realm role mapping and the
   * client role mappings; a listing answered other than 200 raises.
   */
  function RolesRun(config: Config, s: State, n: nat, answer: (nat, Request) -> Reply, k: Session): Run
  {
    var realmList := ListAvailableRealmRoles(config.realm, k.groupId, 0, 100);
    var clientList := ListAvailableClientRoles(config.realm, k.groupId, 0, 1000);
    var s1 := answer(n, realmList).status;
    var s2 := answer(n + 1, clientList).status;
    if s1 != 200 then Run([realmList], s, k, Raised(ListingFailed(AvailableRealmRoles, s1)))
    else if s2 != 200 then Run([realmList, clientList], s, k, Raised(ListingFailed(AvailableClientRoles, s2)))
    else
      var bodies := RealmRoleBodies(Page(s.availableRealmRoles, 0, 100));
      var pending := PendingClientRoles(Page(s.availableClientRoles, 0, 1000));
      Run([realmList, clientList] + (RealmRoleMapping(config.realm, k.groupId, bodies)
          + ClientRoleMappings(config.realm, k.groupId, pending)), s, k, Returned)
  }

  /**
   * create_user, from log position `n`: the user is created unless the
   * listing succeeded and has the username; nothing here raises.
   */
  function UserRun(config: Config, s: State, n: nat, answer: (nat, Request) -> Reply, k: Session): Run
  {
    var list := ListUsers(config.realm);
    var create := CreateUser(config.realm, NewUser(config));
    if answer(n, list).status == 200 && UserNamed(s.users, config.appAdminUser) then Run([list], s, k, Returned)
    else Run([list, create], AfterCreate(s, create, answer(n + 1, create)), k, Returned)
  }

  /**
   * add_user_to_group, from log position `n`: a listing answered other than
   * 200 raises; otherwise every listed user is added to the kept group.
   */
  function MembersRun(config: Config, s: State, n: nat, answer: (nat, Request) -> Reply, k: Session): Run
  {
    var list := ListUserPage(config.realm, 0, 1000);
    var status := answer(n, list).status;
    if status != 200 then Run([list], s, k, Raised(ListingFailed(UserPage, status)))
    else Run([list] + Memberships(config.realm, UserRefs(Page(s.users, 0, 1000)), k.groupId), s, k, Returned)
  }

  /**
   * The main block, sent after `log`: the seven steps in order, each on the
   * state, the session and the log position the one before left, until one
   * raises.
   */
  function MainRun(config: Config, s: State, log: seq<Request>, answer: (nat, Request) -> Reply, k: Session): Run
  {
    var r0 := TokenRun(config, s, |log|, answer, k);
    var r1 := RealmRun(config, r0.state, |log + r0.sent|, answer, r0.session);
    var r2 := ClientRun(config, r1.state, |log + r0.sent + r1.sent|, answer, r1.session);
    var r3 := GroupRun(config, r2.state, |log + r0.sent + r1.sent + r2.sent|, answer, r2.session);
    var r4 := RolesRun(config, r3.state, |log + r0.sent + r1.sent + r2.sent + r3.sent|, answer, r3.session);
    var r5 := UserRun(config, r4.state, |log + r0.sent + r1.sent + r2.sent + r3.sent + r4.sent|, answer, r4.session);
    var r6 := MembersRun(config, r5.state, |log + r0.sent + r1.sent + r2.sent + r3.sent + r4.sent + r5.sent|, answer,
                         r5.session);
    AndThen(r0, AndThen(r1, AndThen(r2, AndThen(r3, AndThen(r4, AndThen(r5, r6))))))
  }

  /** From position `n` on, `log` holds at least one request, all of step `phase`, and stops at its first failure. */
  ghost predicate StepOrderly(log: seq<Request>, n: nat, answer: (nat, Request) -> Reply, outcome: Outcome<Failure>,
                              phase: nat)
  {
    n < |log| && StopsAtFailure(log, n, answer, outcome) && InPhase(log, n, phase)
  }

  /** get_access_token, sent after `log`: one step-0 request, raising exactly when its reply has no token. */
  lemma TokenStops(config: Config, log: seq<Request>, s: State, answer: (nat, Request) -> Reply, k: Session)
    ensures var r := TokenRun(config, s, |log|, answer, k);
            StepOrderly(log + r.sent, |log|, answer, r.outcome, 0)
  {
    var r := TokenRun(config, s, |log|, answer, k);
    assert (log + r.sent)[|log|] == r.sent[0];
  }

  /** A check-then-create step, sent after `log`, stops at a refused listing and never at the creation. */
  lemma ListThenCreateStops(log: seq<Request>, s: State, answer: (nat, Request) -> Reply, k: Session,
                            list: Request, listing: Listing, create: Request, present: bool)
    requires create.IsCreation() && create.Phase() == list.Phase()
    requires Raises(list, answer(|log|, list)) == Refused(listing, answer(|log|, list).status)
    ensures var r := ListThenCreate(s, |log|, answer, k, list, listing, create, present);
            StepOrderly(log + r.sent, |log|, answer, r.outcome, list.Phase())
  {
    var r := ListThenCreate(s, |log|, answer, k, list, listing, create, present);
    var all := log + r.sent;
    assert all[|log|] == list;
    if |r.sent| == 2 {
      assert all[|log| + 1] == create;
    }
  }

  /** create_realm, sent after `log`. */
  lemma RealmStops(config: Config, log: seq<Request>, s: State, answer: (nat, Request) -> Reply, k: Session)
    ensures var r := RealmRun(config, s, |log|, answer, k);
            StepOrderly(log + r.sent, |log|, answer, r.outcome, 1)
  {
    ListThenCreateStops(log, s, answer, k, ListRealms, Realms, CreateRealm(NewRealm(config)), config.realm in s.realms);
  }

  /** create_client, sent after `log`. */
  lemma ClientStops(config: Config, log: seq<Request>, s: State, answer: (nat, Request) -> Reply, k: Session)
    ensures var r := ClientRun(config, s, |log|, answer, k);
            StepOrderly(log + r.sent, |log|, answer, r.outcome, 2)
  {
    ListThenCreateStops(log, s, answer, k, ListClients(config.realm), Clients,
                        CreateClient(config.realm, NewClient(config)), config.clientName in s.clients);
  }

  /** create_group, sent after `log`: step-3 requests only, stopping at a refused listing. */
  lemma GroupStops(config: Config, log: seq<Request>, s: State, answer: (nat, Request) -> Reply, k: Session)
    ensures var r := GroupRun(config, s, |log|, answer, k);
            StepOrderly(log + r.sent, |log|, answer, r.outcome, 3)
  {
    var r := GroupRun(config, s, |log|, answer, k);
    var all := log + r.sent;
    assert all[|log|] == ListGroups(config.realm);
    if |r.sent| > 1 {
      assert all[|log| + 1] == CreateGroup(config.realm, config.groupName);
    }
    if |r.sent| > 2 {
      assert all[|log| + 2] == ListGroups(config.realm);
    }
  }

  /** Requests that never raise: role mappings and group memberships. */
  predicate Unrefused(r: Request)
  {
    r.AssignRealmRoles? || r.AssignClientRoles? || r.AddToGroup?
  }

  /** The role mappings are all step-4 requests that never raise. */
  lemma MappingsUnrefused(realm: string, group: Option<string>, bodies: seq<RoleRep>, pending: seq<PendingClientRole>,
                          maps: seq<Request>)
    requires maps == RealmRoleMapping(realm, group, bodies) + ClientRoleMappings(realm, group, pending)
    ensures forall j :: 0 <= j < |maps| ==> maps[j].Phase() == 4 && Unrefused(maps[j])
  {
    ClientRoleMappingsShape(realm, group, pending);
    var realmMaps := RealmRoleMapping(realm, group, bodies);
    forall j | |realmMaps| <= j < |maps|
      ensures maps[j] == ClientRoleMappings(realm, group, pending)[j - |realmMaps|]
    {
    }
  }

  /** The memberships are all step-6 requests that never raise. */
  lemma MembershipsUnrefused(realm: string, users: seq<UserRef>, group: Option<string>, puts: seq<Request>)
    requires puts == Memberships(realm, users, group)
    ensures forall j :: 0 <= j < |puts| ==> puts[j].Phase() == 6 && Unrefused(puts[j])
  {
    MembershipsShape(realm, users, group);
  }

  /**
   * Requests of one step sent after `log`: `m` listings that all succeeded,
   * then requests that never raise; the step goes on past all of them.
   */
  lemma Quiet(log: seq<Request>, sent: seq<Request>, m: nat, answer: (nat, Request) -> Reply, phase: nat)
    requires m <= |sent|
    requires forall j :: 0 <= j < m ==> sent[j].Phase() == phase && Raises(sent[j], answer(|log| + j, sent[j])).None?
    requires forall j :: m <= j < |sent| ==> sent[j].Phase() == phase && Unrefused(sent[j])
    ensures StopsAtFailure(log + sent, |log|, answer, Returned) && InPhase(log + sent, |log|, phase)
  {
    forall i | |log| <= i < |log + sent|
      ensures (log + sent)[i] == sent[i - |log|]
    {
    }
  }

  /** assign_admin_roles_to_group, sent after `log`: step-4 requests only, stopping at a refused listing. */
  lemma RolesStops(config: Config, log: seq<Request>, s: State, answer: (nat, Request) -> Reply, k: Session)
    ensures var r := RolesRun(config, s, |log|, answer, k);
            StepOrderly(log + r.sent, |log|, answer, r.outcome, 4)
  {
    var r := RolesRun(config, s, |log|, answer, k);
    var all := log + r.sent;
    assert all[|log|] == ListAvailableRealmRoles(config.realm, k.groupId, 0, 100);
    if r.outcome.Returned? {
      var bodies := RealmRoleBodies(Page(s.availableRealmRoles, 0, 100));
      var pending := PendingClientRoles(Page(s.availableClientRoles, 0, 1000));
      var maps := RealmRoleMapping(config.realm, k.groupId, bodies) + ClientRoleMappings(config.realm, k.groupId, pending);
      MappingsUnrefused(config.realm, k.groupId, bodies, pending, maps);
      Quiet(log, [ListAvailableRealmRoles(config.realm, k.groupId, 0, 100),
                            ListAvailableClientRoles(config.realm, k.groupId, 0, 1000)] + maps, 2, answer, 4);
    } else if |r.sent| > 1 {
      assert all[|log| + 1] == ListAvailableClientRoles(config.realm, k.groupId, 0, 1000);
    }
  }

  /** create_user, sent after `log`: step-5 requests only, and nothing raises. */
  lemma UserStops(config: Config, log: seq<Request>, s: State, answer: (nat, Request) -> Reply, k: Session)
    ensures var r := UserRun(config, s, |log|, answer, k);
            StepOrderly(log + r.sent, |log|, answer, r.outcome, 5)
  {
    var r := UserRun(config, s, |log|, answer, k);
    var all := log + r.sent;
    assert all[|log|] == ListUsers(config.realm);
    if |r.sent| > 1 {
      assert all[|log| + 1] == CreateUser(config.realm, NewUser(config));
    }
  }

  /** add_user_to_group, sent after `log`: step-6 requests only, stopping only at a refused listing. */
  lemma MembersStops(config: Config, log: seq<Request>, s: State, answer: (nat, Request) -> Reply, k: Session)
    ensures var r := MembersRun(config, s, |log|, answer, k);
            StepOrderly(log + r.sent, |log|, answer, r.outcome, 6)
  {
    var r := MembersRun(config, s, |log|, answer, k);
    var list := ListUserPage(config.realm, 0, 1000);
    if r.outcome.Raised? {
      assert (log + r.sent)[|log|] == list;
    } else {
      var users := UserRefs(Page(s.users, 0, 1000));
      var puts := Memberships(config.realm, users, k.groupId);
      MembershipsUnrefused(config.realm, users, k.groupId, puts);
      Quiet(log, [list] + puts, 1, answer, 6);
    }
  }

  /** KeycloakClient: the configuration, the admin token and the admin group's id. */
  class KeycloakClient {
    const config: Config
    var accessToken: Option<string>
    var appAdminGroupId: Option<string>

    constructor (config: Config)
      ensures this.config == config
      ensures accessToken == None && appAdminGroupId == None
    {
      this.config := config;
      accessToken := None;
      appAdminGroupId := None;
    }

    /** The listing of the realm roles the admin group may still get: the first hundred. */
    function RealmRoleListing(): Request
      reads this
    {
      ListAvailableRealmRoles(config.realm, appAdminGroupId, 0, 100)
    }

    /** The listing of the client roles the admin group may still get: the first thousand. */
    function ClientRoleListing(): Request
      reads this
    {
      ListAvailableClientRoles(config.realm, appAdminGroupId, 0, 1000)
    }

    /** The session the client keeps: its access token and its admin group's id. */
    function Held(): Session
      reads this
    {
      Session(accessToken, appAdminGroupId)
    }

    /** get_access_token: the password grant for admin-cli; the reply's access_token is kept. */
    method GetAccessToken(server: Server, answer: (nat, Request) -> Reply) returns (outcome: Outcome<Failure>)
      modifies this, server
      ensures var r := TokenRun(config, old(server.state), |old(server.log)|, answer, old(Held()));
              server.log == old(server.log) + r.sent && server.state == r.state && Held() == r.session
              && outcome == r.outcome
      ensures StepOrderly(server.log, |old(server.log)|, answer, outcome, 0)
    {
      ghost var log0, s0, k0 := server.log, server.state, Held();
      var grant := TokenGrant("password", "admin-cli", config.adminUser, config.adminPassword);
      var reply := server.Send(grant, answer);
      if reply.token.None? {
        outcome := Raised(NoAccessToken);
      } else {
        accessToken := reply.token;
        outcome := Returned;
      }
      TokenStops(config, log0, s0, answer, k0);
    }

    /**
     * create_realm: a failed realm listing raises; otherwise the realm is
     * created, enabled, exactly when no listed realm has its name.
     */
    method CreateRealmStep(server: Server, answer: (nat, Request) -> Reply) returns (outcome: Outcome<Failure>)
      modifies server
      ensures var r := RealmRun(config, old(server.state), |old(server.log)|, answer, old(Held()));
              server.log == old(server.log) + r.sent && server.state == r.state && Held() == r.session
              && outcome == r.outcome
      ensures StepOrderly(server.log, |old(server.log)|, answer, outcome, 1)
    {
      ghost var log0, s0, k0 := server.log, server.state, Held();
      var reply := server.Send(ListRealms, answer);
      if reply.status != 200 {
        outcome := Raised(ListingFailed(Realms, reply.status));
      } else {
        var existing := FirstNamed(server.state.realms, config.realm);
        if existing.None? {
          var _ := server.Send(CreateRealm(NewRealm(config)), answer);
        }
        outcome := Returned;
      }
      ListThenCreateStops(log0, s0, answer, k0, ListRealms, Realms, CreateRealm(NewRealm(config)),
                          config.realm in s0.realms);
    }

    /**
     * create_client: a failed client listing raises; otherwise the client is
     * created, enabled with the one redirect URI, exactly when no listed
     * client has its clientId.
     */
    method CreateClientStep(server: Server, answer: (nat, Request) -> Reply) returns (outcome: Outcome<Failure>)
      modifies server
      ensures var r := ClientRun(config, old(server.state), |old(server.log)|, answer, old(Held()));
              server.log == old(server.log) + r.sent && server.state == r.state && Held() == r.session
              && outcome == r.outcome
      ensures StepOrderly(server.log, |old(server.log)|, answer, outcome, 2)
    {
      ghost var log0, s0, k0 := server.log, server.state, Held();
      var reply := server.Send(ListClients(config.realm), answer);
      if reply.status != 200 {
        outcome := Raised(ListingFailed(Clients, reply.status));
      } else {
        var clientExists := ClientListed(server.state.clients, config.clientName);
        if !clientExists {
          var _ := server.Send(CreateClient(config.realm, NewClient(config)), answer);
        }
        outcome := Returned;
      }
      ListThenCreateStops(log0, s0, answer, k0, ListClients(config.realm), Clients,
                          CreateClient(config.realm, NewClient(config)), config.clientName in s0.clients);
    }

    /**
     * check_group_exists: a failed group listing raises;
     * otherwise every group with the configured name is visited and the id of
     * the last one is kept; with none, the kept id stays as it was.
     */
    method CheckGroupExists(server: Server, answer: (nat, Request) -> Reply)
      returns (groupExists: bool, outcome: Outcome<Failure>)
      modifies this, server
      ensures var c := CheckRun(config, old(server.state), |old(server.log)|, answer, old(Held()));
              server.log == old(server.log) + c.sent && server.state == c.state && Held() == c.session
              && outcome == c.outcome
      ensures groupExists <==> outcome.Returned? && LastNamed(old(server.state).groups, config.groupName).Some?
      ensures StepOrderly(server.log, |old(server.log)|, answer, outcome, 3)
    {
      groupExists := false;
      ghost var before := server.log;
      var reply := server.Send(ListGroups(config.realm), answer);
      if reply.status != 200 {
        SentAndRaised(before, |before|, answer, ListGroups(config.realm), 3);
        return false, Raised(ListingFailed(Groups, reply.status));
      }
      Sent(before, |before|, answer, ListGroups(config.realm), 3);
      var groups := server.state.groups;
      var i := 0;
      while i < |groups|
        invariant 0 <= i <= |groups|
        invariant groupExists == LastNamed(groups[..i], config.groupName).Some?
        invariant appAdminGroupId == match LastNamed(groups[..i], config.groupName)
                                     case Some(k) => Some(groups[k].id)
                                     case None => old(appAdminGroupId)
        invariant accessToken == old(accessToken)
        invariant server.log == old(server.log) + [ListGroups(config.realm)] && server.state == old(server.state)
      {
        assert groups[..i + 1][..i] == groups[..i];
        if groups[i].name == config.groupName {
          groupExists := true;
          appAdminGroupId := Some(groups[i].id);
        }
        i := i + 1;
      }
      assert groups[..i] == groups;
      outcome := Returned;
    }

    /**
     * create_group: check the group; when it is missing create
     * it and, on 201, check again so that its id is kept.
     */
    method CreateGroupStep(server: Server, answer: (nat, Request) -> Reply) returns (outcome: Outcome<Failure>)
      modifies this, server
      ensures var r := GroupRun(config, old(server.state), |old(server.log)|, answer, old(Held()));
              server.log == old(server.log) + r.sent && server.state == r.state && Held() == r.session
              && outcome == r.outcome
      ensures StepOrderly(server.log, |old(server.log)|, answer, outcome, 3)
    {
      ghost var log0, s0, k0 := server.log, server.state, Held();
      ghost var check := CheckRun(config, s0, |log0|, answer, k0);
      var create := CreateGroup(config.realm, config.groupName);
      var groupExists;
      groupExists, outcome := CheckGroupExists(server, answer);
      if outcome.Returned? && !groupExists {
        var reply := server.Send(create, answer);
        Associative(log0, check.sent, [create]);
        if reply.status == 201 {
          ghost var recheck := CheckRun(config, server.state, |server.log|, answer, k0);
          var _, o := CheckGroupExists(server, answer);
          outcome := o;
          Associative(log0, check.sent + [create], recheck.sent);
        }
      }
      GroupStops(config, log0, s0, answer, k0);
    }

    /**
     * assign_admin_roles_to_group: both listings of what the group may still
     * get come first, and a failed one raises; then one bulk mapping of every
     * listed realm role, when there is one, and one mapping per listed client
     * role, whatever the replies to the mappings.
     */
    method AssignAdminRolesToGroup(server: Server, answer: (nat, Request) -> Reply) returns (outcome: Outcome<Failure>)
      modifies server
      ensures var r := RolesRun(config, old(server.state), |old(server.log)|, answer, old(Held()));
              server.log == old(server.log) + r.sent && server.state == r.state && Held() == r.session
              && outcome == r.outcome
      ensures StepOrderly(server.log, |old(server.log)|, answer, outcome, 4)
    {
      ghost var log0, s0, k0 := server.log, server.state, Held();
      var group := appAdminGroupId;
      var realmList := RealmRoleListing();
      var reply := server.Send(realmList, answer);
      if reply.status != 200 {
        outcome := Raised(ListingFailed(AvailableRealmRoles, reply.status));
      } else {
        var realmRoles := CollectRealmRoles(Page(server.state.availableRealmRoles, 0, 100));
        var clientList := ClientRoleListing();
        reply := server.Send(clientList, answer);
        if reply.status != 200 {
          outcome := Raised(ListingFailed(AvailableClientRoles, reply.status));
        } else {
          var clientRoles := CollectClientRoles(Page(server.state.availableClientRoles, 0, 1000));
          SendRoleMappings(server, answer, group, realmRoles, clientRoles);
          ghost var maps := RealmRoleMapping(config.realm, group, realmRoles)
                            + ClientRoleMappings(config.realm, group, clientRoles);
          assert [realmList] + [clientList] == [realmList, clientList];
          Associative(log0, [realmList], [clientList]);
          Associative(log0, [realmList, clientList], maps);
          outcome := Returned;
        }
      }
      RolesStops(config, log0, s0, answer, k0);
    }

    /** The mappings: the realm roles in one request when there are any, then one request per client role. */
    method SendRoleMappings(server: Server, answer: (nat, Request) -> Reply, group: Option<string>,
                            bodies: seq<RoleRep>, pending: seq<PendingClientRole>)
      modifies server
      ensures server.log == old(server.log) + (RealmRoleMapping(config.realm, group, bodies)
                                             + ClientRoleMappings(config.realm, group, pending))
      ensures server.state == old(server.state)
      ensures StopsAtFailure(server.log, |old(server.log)|, answer, Returned)
      ensures InPhase(server.log, |old(server.log)|, 4)
    {
      ghost var before := server.log;
      ghost var maps := RealmRoleMapping(config.realm, group, bodies) + ClientRoleMappings(config.realm, group, pending);
      if |bodies| > 0 {
        var _ := server.Send(AssignRealmRoles(config.realm, group, bodies), answer);
      }
      SendClientRoleMappings(server, answer, group, pending);
      assert server.log == before + maps;
      MappingsUnrefused(config.realm, group, bodies, pending, maps);
      Quiet(before, maps, 0, answer, 4);
    }

    /** The client roles loop: each role's client id is popped and the role is mapped under that client. */
    method SendClientRoleMappings(server: Server, answer: (nat, Request) -> Reply, group: Option<string>,
                                  pending: seq<PendingClientRole>)
      modifies server
      ensures server.log == old(server.log) + ClientRoleMappings(config.realm, group, pending)
      ensures server.state == old(server.state)
      ensures StopsAtFailure(server.log, |old(server.log)|, answer, Returned)
      ensures InPhase(server.log, |old(server.log)|, 4)
    {
      ghost var mappings := ClientRoleMappings(config.realm, group, pending);
      ClientRoleMappingsShape(config.realm, group, pending);
      ghost var before := server.log;
      for i := 0 to |pending|
        invariant server.log == before + mappings[..i]
        invariant server.state == old(server.state)
      {
        var (client, role) := PopClientId(pending[i]);
        var _ := server.Send(AssignClientRoles(config.realm, group, client, [role]), answer);
        assert mappings[..i + 1] == mappings[..i] + [mappings[i]];
      }
      assert mappings[..|pending|] == mappings;
      Quiet(before, mappings, 0, answer, 4);
    }

    /**
     * create_user: the user is created, enabled and verified with a permanent
     * password, unless the user listing succeeded and has the username; a
     * failed listing does not raise.
     */
    method CreateUserStep(server: Server, answer: (nat, Request) -> Reply)
      modifies server
      ensures var r := UserRun(config, old(server.state), |old(server.log)|, answer, old(Held()));
              server.log == old(server.log) + r.sent && server.state == r.state && Held() == r.session
              && r.outcome == Returned
      ensures StepOrderly(server.log, |old(server.log)|, answer, Returned, 5)
    {
      ghost var log0, s0, k0 := server.log, server.state, Held();
      var reply := server.Send(ListUsers(config.realm), answer);
      var userExists := false;
      if reply.status == 200 {
        userExists := UserListed(server.state.users, config.appAdminUser);
      }
      if !userExists {
        var _ := server.Send(CreateUser(config.realm, NewUser(config)), answer);
      }
      UserStops(config, log0, s0, answer, k0);
    }

    /**
     * add_user_to_group: a failed listing of the first thousand users raises;
     * otherwise every listed user, not only the admin user, is added to the
     * group, whatever the replies.
     */
    method AddUserToGroupStep(server: Server, answer: (nat, Request) -> Reply) returns (outcome: Outcome<Failure>)
      modifies server
      ensures var r := MembersRun(config, old(server.state), |old(server.log)|, answer, old(Held()));
              server.log == old(server.log) + r.sent && server.state == r.state && Held() == r.session
              && outcome == r.outcome
      ensures StepOrderly(server.log, |old(server.log)|, answer, outcome, 6)
    {
      ghost var log0, s0, k0 := server.log, server.state, Held();
      var list := ListUserPage(config.realm, 0, 1000);
      var reply := server.Send(list, answer);
      if reply.status != 200 {
        outcome := Raised(ListingFailed(UserPage, reply.status));
      } else {
        var users := CollectUsers(Page(server.state.users, 0, 1000));
        SendMemberships(server, answer, users);
        Associative(log0, [list], Memberships(config.realm, users, appAdminGroupId));
        outcome := Returned;
      }
      MembersStops(config, log0, s0, answer, k0);
    }

    /** The membership loop: one PUT per user, to the kept group id. */
    method SendMemberships(server: Server, answer: (nat, Request) -> Reply, users: seq<UserRef>)
      modifies server
      ensures server.log == old(server.log) + Memberships(config.realm, users, appAdminGroupId)
      ensures server.state == old(server.state)
      ensures StopsAtFailure(server.log, |old(server.log)|, answer, Returned)
      ensures InPhase(server.log, |old(server.log)|, 6)
    {
      ghost var puts := Memberships(config.realm, users, appAdminGroupId);
      MembershipsShape(config.realm, users, appAdminGroupId);
      ghost var before := server.log;
      for i := 0 to |users|
        invariant server.log == before + puts[..i]
        invariant server.state == old(server.state)
      {
        var _ := server.Send(AddToGroup(config.realm, users[i].id, appAdminGroupId), answer);
        assert puts[..i + 1] == puts[..i] + [puts[i]];
      }
      assert puts[..|users|] == puts;
      Quiet(before, puts, 0, answer, 6);
    }
  }

  /** After a group with the name is appended, the last group with that name is the new one. */
  lemma NewGroupIsLast(groups: seq<Group>, name: string, id: string)
    ensures LastNamed(groups + [Group(name, id)], name) == Some(|groups|)
  {
    var all := groups + [Group(name, id)];
    assert all != [] && all[|all| - 1] == Group(name, id);
  }

  /** A step that returned, followed by another step, stops where the second one stops. */
  lemma StopsCompose(log1: seq<Request>, log2: seq<Request>, n: nat, answer: (nat, Request) -> Reply,
                     outcome: Outcome<Failure>)
    requires |log1| <= |log2| && log2[..|log1|] == log1
    requires StopsAtFailure(log1, n, answer, Returned)
    requires StopsAtFailure(log2, |log1|, answer, outcome)
    ensures StopsAtFailure(log2, n, answer, outcome)
  {
    forall i | n <= i < |log2| - 1
      ensures Raises(log2[i], answer(i, log2[i])).None?
    {
      if i < |log1| {
        assert log2[i] == log1[i];
      }
    }
  }

  /** A failure belongs to the step of the request whose reply raised it. */
  lemma FailurePhase(r: Request, reply: Reply)
    requires Raises(r, reply).Some?
    ensures Raises(r, reply).value.Phase() == r.Phase()
  {
  }

  /** Step `phase` sent some request of `log` from position `n` on. */
  ghost predicate Ran(log: seq<Request>, n: nat, phase: nat)
  {
    exists i :: n <= i < |log| && log[i].Phase() == phase
  }

  /** From position `n` on, every request of `log` belongs to step `phase` or a later one, up to step 6. */
  ghost predicate PhasesFrom(log: seq<Request>, n: nat, phase: nat)
  {
    forall i :: n <= i < |log| ==> phase <= log[i].Phase() <= 6
  }

  /** Steps `lo` to `hi` - 1 each sent some request of `log` from position `n` on. */
  ghost predicate Covers(log: seq<Request>, n: nat, lo: nat, hi: nat)
  {
    forall phase :: lo <= phase < hi ==> Ran(log, n, phase)
  }

  /**
   * From position `n` on, `log` holds requests of steps `phase` to 6, never
   * going back, and stops at its first failure; a normal return means each
   * of those steps sent a request.
   */
  ghost predicate Orderly(log: seq<Request>, n: nat, answer: (nat, Request) -> Reply, outcome: Outcome<Failure>,
                          phase: nat)
  {
    && n < |log| && StopsAtFailure(log, n, answer, outcome)
    && PhasesAscend(log, n) && PhasesFrom(log, n, phase)
    && (outcome.Returned? ==> Covers(log, n, phase, 7))
  }

  /** Requests all of step `phase`, at most step 6, ascend and start from `phase`. */
  lemma InPhaseOrderly(log: seq<Request>, n: nat, phase: nat)
    requires phase <= 6 && InPhase(log, n, phase)
    ensures PhasesAscend(log, n) && PhasesFrom(log, n, phase)
  {
  }

  /** Requests of step `phase` up to the end of `first`, then of later steps, ascend and start from `phase`. */
  lemma PhasesJoin(first: seq<Request>, all: seq<Request>, n: nat, phase: nat)
    requires |first| <= |all| && all[..|first|] == first && phase <= 6
    requires InPhase(first, n, phase) && PhasesAscend(all, |first|) && PhasesFrom(all, |first|, phase + 1)
    ensures PhasesAscend(all, n) && PhasesFrom(all, n, phase)
  {
    forall i | n <= i < |first|
      ensures all[i].Phase() == phase
    {
      assert all[i] == first[i];
    }
  }

  /** A nonempty part of step `phase`, followed by requests covering steps `phase` + 1 to 6. */
  lemma CoversJoin(first: seq<Request>, all: seq<Request>, n: nat, phase: nat)
    requires n < |first| <= |all| && all[..|first|] == first
    requires InPhase(first, n, phase) && Covers(all, |first|, phase + 1, 7)
    ensures Covers(all, n, phase, 7)
  {
    forall q | phase <= q < 7
      ensures Ran(all, n, q)
    {
      if q == phase {
        assert all[n] == first[n];
      } else {
        assert Ran(all, |first|, q);
      }
    }
  }

  /** A step of the main block, followed, when it returned, by the steps after it. */
  lemma StepThen(log: seq<Request>, a: Run, b: Run, answer: (nat, Request) -> Reply, phase: nat)
    requires phase <= 5
    requires StepOrderly(log + a.sent, |log|, answer, a.outcome, phase)
    requires a.outcome.Returned? ==> Orderly(log + a.sent + b.sent, |log + a.sent|, answer, b.outcome, phase + 1)
    ensures var r := AndThen(a, b);
            Orderly(log + r.sent, |log|, answer, r.outcome, phase)
  {
    var first := log + a.sent;
    if a.outcome.Raised? {
      InPhaseOrderly(first, |log|, phase);
    } else {
      var all := first + b.sent;
      Associative(log, a.sent, b.sent);
      assert all[..|first|] == first;
      StopsCompose(first, all, |log|, answer, b.outcome);
      PhasesJoin(first, all, |log|, phase);
      if b.outcome.Returned? {
        CoversJoin(first, all, |log|, phase);
      }
    }
  }

  /** The last step of the main block covers step 6 alone. */
  lemma LastStepOrderly(log: seq<Request>, n: nat, answer: (nat, Request) -> Reply, outcome: Outcome<Failure>)
    requires StepOrderly(log, n, answer, outcome, 6)
    ensures Orderly(log, n, answer, outcome, 6)
  {
    InPhaseOrderly(log, n, 6);
    assert log[n].Phase() == 6;
  }

  /** Seven steps, each sent after the ones before it. */
  lemma Chain(log: seq<Request>, answer: (nat, Request) -> Reply,
              r0: Run, r1: Run, r2: Run, r3: Run, r4: Run, r5: Run, r6: Run)
    requires StepOrderly(log + r0.sent, |log|, answer, r0.outcome, 0)
    requires StepOrderly(log + r0.sent + r1.sent, |log + r0.sent|, answer, r1.outcome, 1)
    requires StepOrderly(log + r0.sent + r1.sent + r2.sent, |log + r0.sent + r1.sent|, answer, r2.outcome, 2)
    requires StepOrderly(log + r0.sent + r1.sent + r2.sent + r3.sent, |log + r0.sent + r1.sent + r2.sent|,
                         answer, r3.outcome, 3)
    requires StepOrderly(log + r0.sent + r1.sent + r2.sent + r3.sent + r4.sent,
                         |log + r0.sent + r1.sent + r2.sent + r3.sent|, answer, r4.outcome, 4)
    requires StepOrderly(log + r0.sent + r1.sent + r2.sent + r3.sent + r4.sent + r5.sent,
                         |log + r0.sent + r1.sent + r2.sent + r3.sent + r4.sent|, answer, r5.outcome, 5)
    requires StepOrderly(log + r0.sent + r1.sent + r2.sent + r3.sent + r4.sent + r5.sent + r6.sent,
                         |log + r0.sent + r1.sent + r2.sent + r3.sent + r4.sent + r5.sent|, answer, r6.outcome, 6)
    ensures var r := AndThen(r0, AndThen(r1, AndThen(r2, AndThen(r3, AndThen(r4, AndThen(r5, r6))))));
            Orderly(log + r.sent, |log|, answer, r.outcome, 0)
  {
    var l1 := log + r0.sent;
    var l2 := l1 + r1.sent;
    var l3 := l2 + r2.sent;
    var l4 := l3 + r3.sent;
    var l5 := l4 + r4.sent;
    var l6 := l5 + r5.sent;
    LastStepOrderly(l6 + r6.sent, |l6|, answer, r6.outcome);
    StepThen(l5, r5, r6, answer, 5);
    StepThen(l4, r4, AndThen(r5, r6), answer, 4);
    StepThen(l3, r3, AndThen(r4, AndThen(r5, r6)), answer, 3);
    StepThen(l2, r2, AndThen(r3, AndThen(r4, AndThen(r5, r6))), answer, 2);
    StepThen(l1, r1, AndThen(r2, AndThen(r3, AndThen(r4, AndThen(r5, r6)))), answer, 1);
    StepThen(log, r0, AndThen(r1, AndThen(r2, AndThen(r3, AndThen(r4, AndThen(r5, r6))))), answer, 0);
  }

  /**
   * The main block, sent after `log`: its requests belong to steps 0 to 6,
   * the steps never go back, the run stops at its first failure, and a
   * normal return means all seven steps sent a request.
   */
  lemma MainStops(config: Config, log: seq<Request>, s: State, answer: (nat, Request) -> Reply, k: Session)
    ensures var r := MainRun(config, s, log, answer, k);
            Orderly(log + r.sent, |log|, answer, r.outcome, 0)
  {
    var r0 := TokenRun(config, s, |log|, answer, k);
    TokenStops(config, log, s, answer, k);
    var l1 := log + r0.sent;
    var r1 := RealmRun(config, r0.state, |l1|, answer, r0.session);
    RealmStops(config, l1, r0.state, answer, r0.session);
    var l2 := l1 + r1.sent;
    var r2 := ClientRun(config, r1.state, |l2|, answer, r1.session);
    ClientStops(config, l2, r1.state, answer, r1.session);
    var l3 := l2 + r2.sent;
    var r3 := GroupRun(config, r2.state, |l3|, answer, r2.session);
    GroupStops(config, l3, r2.state, answer, r2.session);
    var l4 := l3 + r3.sent;
    var r4 := RolesRun(config, r3.state, |l4|, answer, r3.session);
    RolesStops(config, l4, r3.state, answer, r3.session);
    var l5 := l4 + r4.sent;
    var r5 := UserRun(config, r4.state, |l5|, answer, r4.session);
    UserStops(config, l5, r4.state, answer, r4.session);
    var l6 := l5 + r5.sent;
    MembersStops(config, l6, r5.state, answer, r5.session);
    Chain(log, answer, r0, r1, r2, r3, r4, r5, MembersRun(config, r5.state, |l6|, answer, r5.session));
  }

  /** In a run whose steps never go back, a failure belongs to the last step that ran. */
  lemma RaisedLast(log: seq<Request>, n: nat, answer: (nat, Request) -> Reply, outcome: Outcome<Failure>)
    requires StopsAtFailure(log, n, answer, outcome) && PhasesAscend(log, n) && outcome.Raised?
    ensures PhasesAtMost(log, n, outcome.error.Phase())
  {
    var last := |log| - 1;
    FailurePhase(log[last], answer(last, log[last]));
  }

  /**
   * The main block's seven steps, each run only when the one before
   * returned, leave the log, the state, the session and the outcome of
   * their chain.
   */
  lemma Joined(reached: bool, base: seq<Request>, a: Run, b: Run, log: seq<Request>, s: State, k: Session,
               outcome: Outcome<Failure>)
    requires reached && a.outcome.Raised? ==>
               log == base + a.sent && s == a.state && k == a.session && outcome == a.outcome
    requires reached && a.outcome.Returned? ==>
               log == base + a.sent + b.sent && s == b.state && k == b.session && outcome == b.outcome
    ensures var r := AndThen(a, b);
            reached ==> log == base + r.sent && s == r.state && k == r.session && outcome == r.outcome
  {
    Associative(base, a.sent, b.sent);
  }

  // ----- what a run promises on a server that completes every request -----

  /** A server that completes every request: a token for the grant, 201 for a creation, 200 for anything else. */
  ghost predicate Completes(answer: (nat, Request) -> Reply)
  {
    forall i, q :: answer(i, q).token.Some? && answer(i, q).status == if q.IsCreation() then 201 else 200
  }

  /** The kept group id is the id of the last group with the configured name. */
  ghost predicate HasGroup(config: Config, s: State, k: Session)
  {
    var found := LastNamed(s.groups, config.groupName);
    found.Some? && k.groupId == Some(s.groups[found.value].id)
  }

  /** None of `sent` asks for a creation. */
  ghost predicate NoCreation(sent: seq<Request>)
  {
    forall i :: 0 <= i < |sent| ==> !sent[i].IsCreation()
  }

  /** Two parts without a creation make none together. */
  lemma NoCreationJoin(a: seq<Request>, b: seq<Request>)
    requires NoCreation(a) && NoCreation(b)
    ensures NoCreation(a + b)
  {
    forall i | |a| <= i < |a + b|
      ensures (a + b)[i] == b[i - |a|]
    {
    }
  }

  /** get_access_token on such a server: the token is kept, nothing else changes. */
  lemma TokenCompletes(config: Config, s: State, n: nat, answer: (nat, Request) -> Reply, k: Session)
    requires Completes(answer)
    ensures var r := TokenRun(config, s, n, answer, k);
            && r.outcome == Returned && r.state == s && r.session.token.Some? && r.session.groupId == k.groupId
            && NoCreation(r.sent)
  {
    var grant := TokenGrant("password", "admin-cli", config.adminUser, config.adminPassword);
    assert answer(n, grant).token.Some?;
  }

  /** create_realm on such a server: afterwards the realm exists; only the realms change. */
  lemma RealmCompletes(config: Config, s: State, n: nat, answer: (nat, Request) -> Reply, k: Session)
    requires Completes(answer)
    ensures var r := RealmRun(config, s, n, answer, k);
            && r.outcome == Returned && r.session == k && config.realm in r.state.realms
            && r.state == s.(realms := r.state.realms)
            && (config.realm in s.realms ==> r.state == s && NoCreation(r.sent))
  {
    assert answer(n, ListRealms).status == 200;
    assert answer(n + 1, CreateRealm(NewRealm(config))).status == 201;
  }

  /** create_client on such a server: afterwards the client exists; only the clients change. */
  lemma ClientCompletes(config: Config, s: State, n: nat, answer: (nat, Request) -> Reply, k: Session)
    requires Completes(answer)
    ensures var r := ClientRun(config, s, n, answer, k);
            && r.outcome == Returned && r.session == k && config.clientName in r.state.clients
            && r.state == s.(clients := r.state.clients)
            && (config.clientName in s.clients ==> r.state == s && NoCreation(r.sent))
  {
    assert answer(n, ListClients(config.realm)).status == 200;
    assert answer(n + 1, CreateClient(config.realm, NewClient(config))).status == 201;
  }

  /**
   * create_group on such a server: afterwards the kept id is that of the
   * last group with the name, the new one when it had to be created; only
   * the groups and the kept id change.
   */
  lemma GroupCompletes(config: Config, s: State, n: nat, answer: (nat, Request) -> Reply, k: Session)
    requires Completes(answer)
    ensures var r := GroupRun(config, s, n, answer, k);
            && r.outcome == Returned && HasGroup(config, r.state, r.session) && r.session.token == k.token
            && r.state == s.(groups := r.state.groups)
            && (LastNamed(s.groups, config.groupName).Some? ==> r.state == s && NoCreation(r.sent))
  {
    var list := ListGroups(config.realm);
    var create := CreateGroup(config.realm, config.groupName);
    assert answer(n, list).status == 200 && answer(n + 2, list).status == 200;
    assert answer(n + 1, create).status == 201;
    if LastNamed(s.groups, config.groupName).None? {
      NewGroupIsLast(s.groups, config.groupName, answer(n + 1, create).newId);
    }
  }

  /** assign_admin_roles_to_group on such a server: it returns, creates nothing and changes nothing it keeps. */
  lemma RolesCompletes(config: Config, s: State, n: nat, answer: (nat, Request) -> Reply, k: Session)
    requires Completes(answer)
    ensures var r := RolesRun(config, s, n, answer, k);
            r.outcome == Returned && r.state == s && r.session == k && NoCreation(r.sent)
  {
    var r := RolesRun(config, s, n, answer, k);
    var realmList := ListAvailableRealmRoles(config.realm, k.groupId, 0, 100);
    var clientList := ListAvailableClientRoles(config.realm, k.groupId, 0, 1000);
    assert answer(n, realmList).status == 200 && answer(n + 1, clientList).status == 200;
    var bodies := RealmRoleBodies(Page(s.availableRealmRoles, 0, 100));
    var pending := PendingClientRoles(Page(s.availableClientRoles, 0, 1000));
    var maps := RealmRoleMapping(config.realm, k.groupId, bodies) + ClientRoleMappings(config.realm, k.groupId, pending);
    MappingsUnrefused(config.realm, k.groupId, bodies, pending, maps);
    NoCreationJoin([realmList, clientList], maps);
  }

  /** create_user on such a server: afterwards a user has the admin username; only the users change. */
  lemma UserCompletes(config: Config, s: State, n: nat, answer: (nat, Request) -> Reply, k: Session)
    requires Completes(answer)
    ensures var r := UserRun(config, s, n, answer, k);
            && r.outcome == Returned && r.session == k && UserNamed(r.state.users, config.appAdminUser)
            && r.state == s.(users := r.state.users)
            && (UserNamed(s.users, config.appAdminUser) ==> r.state == s && NoCreation(r.sent))
  {
    var create := CreateUser(config.realm, NewUser(config));
    assert answer(n, ListUsers(config.realm)).status == 200;
    assert answer(n + 1, create).status == 201;
    if !UserNamed(s.users, config.appAdminUser) {
      var users := s.users + [User(answer(n + 1, create).newId, config.appAdminUser)];
      assert users[|s.users|].username == config.appAdminUser;
    }
  }

  /** add_user_to_group on such a server: it returns, creates nothing and changes nothing it keeps. */
  lemma MembersCompletes(config: Config, s: State, n: nat, answer: (nat, Request) -> Reply, k: Session)
    requires Completes(answer)
    ensures var r := MembersRun(config, s, n, answer, k);
            r.outcome == Returned && r.state == s && r.session == k && NoCreation(r.sent)
  {
    var list := ListUserPage(config.realm, 0, 1000);
    assert answer(n, list).status == 200;
    var users := UserRefs(Page(s.users, 0, 1000));
    var puts := Memberships(config.realm, users, k.groupId);
    MembershipsUnrefused(config.realm, users, k.groupId, puts);
    NoCreationJoin([list], puts);
  }

  /**
   * On a server that completes every request, the main block returns with
   * the token kept, the realm, the client and a user with the admin
   * username present, and the kept group id that of the last group with
   * the group name.
   */
  lemma MainCompletes(config: Config, s: State, log: seq<Request>, answer: (nat, Request) -> Reply, k: Session)
    requires Completes(answer)
    ensures var r := MainRun(config, s, log, answer, k);
            && r.outcome == Returned && r.session.token.Some?
            && config.realm in r.state.realms && config.clientName in r.state.clients
            && HasGroup(config, r.state, r.session) && UserNamed(r.state.users, config.appAdminUser)
  {
    var r0 := TokenRun(config, s, |log|, answer, k);
    TokenCompletes(config, s, |log|, answer, k);
    var r1 := RealmRun(config, r0.state, |log + r0.sent|, answer, r0.session);
    RealmCompletes(config, r0.state, |log + r0.sent|, answer, r0.session);
    var r2 := ClientRun(config, r1.state, |log + r0.sent + r1.sent|, answer, r1.session);
    ClientCompletes(config, r1.state, |log + r0.sent + r1.sent|, answer, r1.session);
    var n3 := |log + r0.sent + r1.sent + r2.sent|;
    var r3 := GroupRun(config, r2.state, n3, answer, r2.session);
    GroupCompletes(config, r2.state, n3, answer, r2.session);
    var n4 := |log + r0.sent + r1.sent + r2.sent + r3.sent|;
    var r4 := RolesRun(config, r3.state, n4, answer, r3.session);
    RolesCompletes(config, r3.state, n4, answer, r3.session);
    var n5 := |log + r0.sent + r1.sent + r2.sent + r3.sent + r4.sent|;
    var r5 := UserRun(config, r4.state, n5, answer, r4.session);
    UserCompletes(config, r4.state, n5, answer, r4.session);
    var n6 := |log + r0.sent + r1.sent + r2.sent + r3.sent + r4.sent + r5.sent|;
    MembersCompletes(config, r5.state, n6, answer, r5.session);
  }

  /**
   * Run again, on a server that completes every request and already has
   * the realm, the client, the group and the admin user, the main block
   * creates nothing and leaves the server's entities as they were.
   */
  lemma MainRerunCreatesNothing(config: Config, s: State, log: seq<Request>, answer: (nat, Request) -> Reply,
                                k: Session)
    requires Completes(answer)
    requires config.realm in s.realms && config.clientName in s.clients
    requires LastNamed(s.groups, config.groupName).Some? && UserNamed(s.users, config.appAdminUser)
    ensures var r := MainRun(config, s, log, answer, k);
            r.outcome == Returned && r.state == s && NoCreation(r.sent)
  {
    var r0 := TokenRun(config, s, |log|, answer, k);
    TokenCompletes(config, s, |log|, answer, k);
    var r1 := RealmRun(config, r0.state, |log + r0.sent|, answer, r0.session);
    RealmCompletes(config, r0.state, |log + r0.sent|, answer, r0.session);
    var r2 := ClientRun(config, r1.state, |log + r0.sent + r1.sent|, answer, r1.session);
    ClientCompletes(config, r1.state, |log + r0.sent + r1.sent|, answer, r1.session);
    var n3 := |log + r0.sent + r1.sent + r2.sent|;
    var r3 := GroupRun(config, r2.state, n3, answer, r2.session);
    GroupCompletes(config, r2.state, n3, answer, r2.session);
    var n4 := |log + r0.sent + r1.sent + r2.sent + r3.sent|;
    var r4 := RolesRun(config, r3.state, n4, answer, r3.session);
    RolesCompletes(config, r3.state, n4, answer, r3.session);
    var n5 := |log + r0.sent + r1.sent + r2.sent + r3.sent + r4.sent|;
    var r5 := UserRun(config, r4.state, n5, answer, r4.session);
    UserCompletes(config, r4.state, n5, answer, r4.session);
    var n6 := |log + r0.sent + r1.sent + r2.sent + r3.sent + r4.sent + r5.sent|;
    var r6 := MembersRun(config, r5.state, n6, answer, r5.session);
    MembersCompletes(config, r5.state, n6, answer, r5.session);
    NoCreationJoin(r5.sent, r6.sent);
    NoCreationJoin(r4.sent, r5.sent + r6.sent);
    NoCreationJoin(r3.sent, r4.sent + (r5.sent + r6.sent));
    NoCreationJoin(r2.sent, r3.sent + (r4.sent + (r5.sent + r6.sent)));
    NoCreationJoin(r1.sent, r2.sent + (r3.sent + (r4.sent + (r5.sent + r6.sent))));
    NoCreationJoin(r0.sent, r1.sent + (r2.sent + (r3.sent + (r4.sent + (r5.sent + r6.sent)))));
  }

  /**
   * The script's main block: token, realm, client, group, role mappings,
   * user and membership, in that order, on a new client; the first
   * exception ends the run.
   */
  method SetUpKeycloak(config: Config, server: Server, answer: (nat, Request) -> Reply)
    returns (client: KeycloakClient, outcome: Outcome<Failure>)
    modifies server
    ensures fresh(client) && client.config == config
    ensures var r := MainRun(config, old(server.state), old(server.log), answer, Session(None, None));
            server.log == old(server.log) + r.sent && server.state == r.state && client.Held() == r.session
            && outcome == r.outcome
    ensures Orderly(server.log, |old(server.log)|, answer, outcome, 0)
    ensures outcome.Raised? ==> PhasesAtMost(server.log, |old(server.log)|, outcome.error.Phase())
  {
    ghost var log0, s0, k0 := server.log, server.state, Session(None, None);
    client := new KeycloakClient(config);
    ghost var r0 := TokenRun(config, s0, |log0|, answer, k0);
    ghost var r1 := RealmRun(config, r0.state, |log0 + r0.sent|, answer, r0.session);
    ghost var r2 := ClientRun(config, r1.state, |log0 + r0.sent + r1.sent|, answer, r1.session);
    ghost var r3 := GroupRun(config, r2.state, |log0 + r0.sent + r1.sent + r2.sent|, answer, r2.session);
    ghost var r4 := RolesRun(config, r3.state, |log0 + r0.sent + r1.sent + r2.sent + r3.sent|, answer, r3.session);
    ghost var r5 := UserRun(config, r4.state, |log0 + r0.sent + r1.sent + r2.sent + r3.sent + r4.sent|, answer,
                            r4.session);
    ghost var r6 := MembersRun(config, r5.state, |log0 + r0.sent + r1.sent + r2.sent + r3.sent + r4.sent + r5.sent|,
                               answer, r5.session);
    outcome := client.GetAccessToken(server, answer);
    if outcome.Returned? {
      outcome := client.CreateRealmStep(server, answer);
      if outcome.Returned? {
        outcome := client.CreateClientStep(server, answer);
        if outcome.Returned? {
          outcome := client.CreateGroupStep(server, answer);
          if outcome.Returned? {
            outcome := client.AssignAdminRolesToGroup(server, answer);
            if outcome.Returned? {
              client.CreateUserStep(server, answer);
              outcome := client.AddUserToGroupStep(server, answer);
            }
          }
        }
      }
    }
    ghost var l1 := log0 + r0.sent;
    ghost var l2 := l1 + r1.sent;
    ghost var l3 := l2 + r2.sent;
    ghost var l4 := l3 + r3.sent;
    ghost var l5 := l4 + r4.sent;
    ghost var done4 := r0.outcome.Returned? && r1.outcome.Returned? && r2.outcome.Returned? && r3.outcome.Returned?;
    Joined(done4 && r4.outcome.Returned?, l5, r5, r6, server.log, server.state, client.Held(), outcome);
    Joined(done4, l4, r4, AndThen(r5, r6), server.log, server.state, client.Held(), outcome);
    Joined(r0.outcome.Returned? && r1.outcome.Returned? && r2.outcome.Returned?, l3, r3,
           AndThen(r4, AndThen(r5, r6)), server.log, server.state, client.Held(), outcome);
    Joined(r0.outcome.Returned? && r1.outcome.Returned?, l2, r2,
           AndThen(r3, AndThen(r4, AndThen(r5, r6))), server.log, server.state, client.Held(), outcome);
    Joined(r0.outcome.Returned?, l1, r1,
           AndThen(r2, AndThen(r3, AndThen(r4, AndThen(r5, r6)))), server.log, server.state, client.Held(), outcome);
    Joined(true, log0, r0,
           AndThen(r1, AndThen(r2, AndThen(r3, AndThen(r4, AndThen(r5, r6))))), server.log, server.state,
           client.Held(), outcome);
    MainStops(config, log0, s0, answer, k0);
    if outcome.Raised? {
      RaisedLast(server.log, |log0|, answer, outcome);
    }
  }
}
