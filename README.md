# Provisioning scripts for Keycloak, Vault and PostgreSQL, modelled in Dafny

Three scripts prepare the services a to-do application needs:

- `database_keycloak_setup/keycloak_setup.py` configures Keycloak through its admin REST API. It gets an admin token, then makes sure the realm, the client, the admin group, the group's role mappings, the admin user and the group memberships exist.
- `vault/vault_setup.py` configures HashiCorp Vault through the `hvac` client. It initializes and unseals the server, then makes sure of a kv secrets engine, a policy over it, a userpass auth method and a user bound to the policy.
- `database_keycloak_setup/db_setup.py` prepares PostgreSQL through `psycopg2`. It makes sure of the application role, the application database and two schemas.

Every step is *check then create*: list what exists, and send a creation only when the name is missing. The model keeps the decisions between the calls and drops the transport.

Each remote system is a `Server` class with two fields:

- `state`, the catalog the listings read: realm names, client ids, groups, users and available roles for Keycloak; the initialized and sealed flags, mounts, policies and userpass users for Vault; roles, databases and namespaces for PostgreSQL.
- `log`, every request received, in order.

Replies are never assumed. Each method receives the replies as an input: `answer(position, request)` for Keycloak and Vault, or the set of requests the server `rejects` for PostgreSQL. The state changes only through a logged request whose reply reports success: 201 for a Keycloak creation, a completed call (204 for the writes) for Vault, and an accepted statement for PostgreSQL.

The files:

- `outcomes.dfy`: `Option` and `Outcome` (a normal return, or the exception raised).
- `keycloak.dfy`: module `Keycloak`. The `KeycloakClient` class holds the two fields the script updates, the access token and the admin group's id. Its step methods each state the exact request log, the new state, the kept token and group id and the outcome as a function of the replies (`TokenRun` to `MembersRun`); `MainRun` chains the seven for the main block, and the lemmas after them prove what those runs mean.
- `vault.dfy`: module `Vault`. It has the `VaultClient` check-then-create steps, specified by `EngineCalls`, `PolicyCalls`, `AuthCalls` and `UserCalls`, and the `VaultConfig` class, whose `token`, `keys` and `keysBase64` fields the initialization sets. `InitAndUnsealRun` and `ConfigureRun` state, as a function of the replies, what initialize_and_unseal_vault and configure_vault send, change, keep and write, and the lemmas after it prove what that means. `StopsAtFailure` says that a run stops at its first exception: every earlier call completed, apart from the user listing and the first user write that `create_user` catches. It also has the policy text and the credentials filename, with their parsers and round-trip lemmas.
- `postgres.dfy`: module `Postgres`. A recursive interpreter `Run` sends a trace of requests, stops at the first rejected one and re-raises it. `Provisioning(env, s0)` is the trace of a run without failures. The imperative `CreateUserAndDatabase` is proved to behave as `Run` over `Provisioning`.
- `postgres_properties.dfy`: module `PostgresProperties`. It proves properties of `Provisioning` for every starting catalog.

The main blocks are `Keycloak.SetUpKeycloak`, `Vault.SetUpVault` and `Postgres.CreateUserAndDatabase`. Environment values are parameters: `Keycloak.Config`, `Vault.Settings` with `Vault.External`, and `Postgres.Env`. The current date is a `Vault.Date` parameter.

Two quirks of the code are modelled as written:

- `add_user_to_group` reports a failed user listing with the realm-roles message. `Keycloak.Listing.Message` keeps that text.
- `add_user_to_group` puts every listed user into the admin group, not only the admin user.

## Model

| member | source | states |
|---|---|---|
| Keycloak.FirstNamed | database_keycloak_setup/keycloak_setup.py:71-78 | the `next(...)` search finds a realm exactly when one has the name, and the position found is the first with that name |
| Keycloak.ClientListed | database_keycloak_setup/keycloak_setup.py:116-120 | the `client_exists` loop ends true exactly when some listed client has the clientId |
| Keycloak.LastNamed | database_keycloak_setup/keycloak_setup.py:165-170 | the position reported is that of the last group with the name, and none is reported exactly when no group has it |
| Keycloak.UserListed | database_keycloak_setup/keycloak_setup.py:322-328 | the early-returning loop reports a user exactly when some listed user has the username |
| Keycloak.CollectRealmRoles | database_keycloak_setup/keycloak_setup.py:214-223 | the roles to assign are the listed realm roles, in listing order, each cut to id, name and description |
| Keycloak.CollectClientRoles | database_keycloak_setup/keycloak_setup.py:239-249 | the client roles to assign are the listed ones, in listing order, with `name` taken from `role` and the client's id kept |
| Keycloak.CollectUsers | database_keycloak_setup/keycloak_setup.py:372-380 | the users to add are all the listed users, in listing order, as id and username |
| Keycloak.ClientRoleMappingsShape | database_keycloak_setup/keycloak_setup.py:281-303 | there is exactly one mapping request per pending client role, in order; each goes to that role's client and carries a one-element body without the client id |
| Keycloak.MembershipsShape | database_keycloak_setup/keycloak_setup.py:386-391 | there is exactly one PUT per listed user, in order, each to the kept group id |
| Keycloak.KeycloakClient.constructor | database_keycloak_setup/keycloak_setup.py:32-38 | the access token and the group id start unset |
| Keycloak.KeycloakClient.GetAccessToken | database_keycloak_setup/keycloak_setup.py:40-54 | the requests, state, session and outcome are those of `TokenRun`: exactly one password grant for admin-cli with the admin credentials; the token is kept when the reply has one, and a reply without one raises; the step sends one request, of step 0 |
| Keycloak.KeycloakClient.CreateRealmStep | database_keycloak_setup/keycloak_setup.py:56-101 | the requests, state, session and outcome are those of `RealmRun`: a non-200 realm listing raises with no POST; otherwise a POST `{realm, enabled: true}` is sent exactly when no realm has the name, and only a 201 adds the realm; the step's requests are all of step 1 and stop at the first failure |
| Keycloak.KeycloakClient.CreateClientStep | database_keycloak_setup/keycloak_setup.py:103-145 | the requests, state, session and outcome are those of `ClientRun`: a non-200 listing raises with no POST; a listed clientId suppresses the POST; otherwise exactly one POST with `enabled: true` and the one redirect URI, and only a 201 adds the client |
| Keycloak.KeycloakClient.CheckGroupExists | database_keycloak_setup/keycloak_setup.py:153-175 | the request, session and outcome are those of `CheckRun`: a non-200 listing raises; otherwise the group id becomes the id of the last group with the name, and stays as it was when none has it; the result is true exactly when the listing succeeded and a group has the name |
| Keycloak.KeycloakClient.CreateGroupStep | database_keycloak_setup/keycloak_setup.py:147-198 | the requests, state, session and outcome are those of `GroupRun`: a missing group is POSTed once; only after a 201 is the listing re-run, which keeps the new group's id; any other POST status leaves the id as it was |
| Keycloak.NewGroupIsLast | database_keycloak_setup/keycloak_setup.py:192-193 | after a group with the name is appended to the listing, the re-run finds that group as the last one with the name |
| Keycloak.KeycloakClient.AssignAdminRolesToGroup | database_keycloak_setup/keycloak_setup.py:200-307 | the requests, state, session and outcome are those of `RolesRun`: both listings (realm, then client) come before any mapping; a non-200 listing raises with no mapping sent; otherwise the realm mapping and the client mappings follow |
| Keycloak.KeycloakClient.SendRoleMappings | database_keycloak_setup/keycloak_setup.py:255-307 | one bulk realm-role mapping when there are realm roles, none otherwise, then one mapping per client role, whatever the replies |
| Keycloak.KeycloakClient.SendClientRoleMappings | database_keycloak_setup/keycloak_setup.py:286-303 | the loop sends the client role mappings in order, and a failed POST does not stop it |
| Keycloak.KeycloakClient.CreateUserStep | database_keycloak_setup/keycloak_setup.py:309-358 | the requests, state, session and outcome are those of `UserRun`: no POST when the listing succeeded and has the username; otherwise, a failed listing included, exactly one POST of an enabled, verified user with a non-temporary password; the step never raises |
| Keycloak.KeycloakClient.AddUserToGroupStep | database_keycloak_setup/keycloak_setup.py:360-403 | the requests, state, session and outcome are those of `MembersRun`: a non-200 listing raises; otherwise one PUT per listed user, in order, whatever the replies |
| Keycloak.KeycloakClient.SendMemberships | database_keycloak_setup/keycloak_setup.py:386-399 | the PUT loop sends the memberships in order and never stops early |
| Keycloak.TokenStops | database_keycloak_setup/keycloak_setup.py:40-54 | get_access_token sends at least one request, all of step 0, and stops at its first failure |
| Keycloak.RealmStops | database_keycloak_setup/keycloak_setup.py:56-101 | create_realm sends at least one request, all of step 1, and stops at its first failure |
| Keycloak.ClientStops | database_keycloak_setup/keycloak_setup.py:103-145 | create_client sends at least one request, all of step 2, and stops at its first failure |
| Keycloak.GroupStops | database_keycloak_setup/keycloak_setup.py:147-198 | create_group sends at least one request, all of step 3, and stops at its first failure |
| Keycloak.RolesStops | database_keycloak_setup/keycloak_setup.py:200-307 | assign_admin_roles_to_group sends at least one request, all of step 4, and stops at its first failure; the mapping replies never stop it |
| Keycloak.UserStops | database_keycloak_setup/keycloak_setup.py:309-358 | create_user sends at least one request, all of step 5, and stops at its first failure; it returns whatever the replies |
| Keycloak.MembersStops | database_keycloak_setup/keycloak_setup.py:360-403 | add_user_to_group sends at least one request, all of step 6, and stops at its first failure; the PUT replies never stop it |
| Keycloak.MainStops | database_keycloak_setup/keycloak_setup.py:406-417 | the main block's requests belong to steps 0 to 6, the steps never go back, the run stops at its first failure, and a normal return means all seven steps sent a request |
| Keycloak.TokenCompletes | database_keycloak_setup/keycloak_setup.py:40-54 | on a server that completes every request, the token is kept, nothing else changes and nothing is created |
| Keycloak.RealmCompletes | database_keycloak_setup/keycloak_setup.py:56-101 | on such a server the step returns with the realm present, only the realms change, and a realm already present means no creation and no change |
| Keycloak.ClientCompletes | database_keycloak_setup/keycloak_setup.py:103-145 | on such a server the step returns with the client present, only the clients change, and a client already present means no creation and no change |
| Keycloak.GroupCompletes | database_keycloak_setup/keycloak_setup.py:147-198 | on such a server the step returns with the kept id that of the last group with the name, only the groups change, and a group already present means no creation and no change |
| Keycloak.RolesCompletes | database_keycloak_setup/keycloak_setup.py:200-307 | on such a server the step returns, creates nothing and changes neither the catalog nor the session |
| Keycloak.UserCompletes | database_keycloak_setup/keycloak_setup.py:309-358 | on such a server the step returns with a user of the admin username, only the users change, and a user already present means no creation and no change |
| Keycloak.MembersCompletes | database_keycloak_setup/keycloak_setup.py:360-403 | on such a server the step returns, creates nothing and changes neither the catalog nor the session |
| Keycloak.MainCompletes | database_keycloak_setup/keycloak_setup.py:406-417 | on a server that completes every request, the main block returns with the token kept, the realm, the client and the admin user present, and the kept group id that of the last group with the group name |
| Keycloak.MainRerunCreatesNothing | database_keycloak_setup/keycloak_setup.py:406-417 | run again on such a server when the realm, the client, the group and the admin user exist, the main block returns, creates nothing and leaves the catalog as it was |
| Keycloak.SetUpKeycloak | database_keycloak_setup/keycloak_setup.py:406-417 | the requests, state, kept token and group id and outcome are those of `MainRun`: token, realm, client, group, role mappings, user and membership, each on the state, session and log position the one before left, until one raises; the steps never go back, a failure ends the run in the step that raised, and a normal return means every step ran |
| Vault.VaultClient.constructor | vault/vault_setup.py:8-12 | the client keeps the url and the token it is given |
| Vault.VaultClient.CreateSecretEngine | vault/vault_setup.py:14-30 | the calls, new state and outcome are those of `EngineCalls`: a raising listing propagates; otherwise the engine is enabled with the type and description exactly when no engine is mounted at `name + "/"`; all calls are of step 1 and the step stops at its first exception |
| Vault.VaultClient.CreatePolicy | vault/vault_setup.py:32-46 | the calls, new state and outcome are those of `PolicyCalls`: a raising listing propagates; otherwise the policy is written exactly when no policy has the name; all calls are of step 2 |
| Vault.VaultClient.CreateAuthMethod | vault/vault_setup.py:48-64 | the calls, new state and outcome are those of `AuthCalls`: a raising listing propagates; otherwise a userpass method is enabled exactly when nothing is mounted at `name + "/"`; all calls are of step 3 |
| Vault.VaultClient.CreateUser | vault/vault_setup.py:66-97 | the calls, new state and outcome are those of `UserCalls`: no write when the listing succeeded and names the user; one write, from the `except` branch, when the listing raises; a second write when the first raises; only the `except` write can raise out |
| Vault.VaultConfig.constructor | vault/vault_setup.py:102-123 | the settings are kept, and the token and keys start unset |
| Vault.VaultConfig.InitializeServer | vault/vault_setup.py:133-151 | the calls, the new server state, the kept token and keys, the written file and the outcome are those of `InitServerRun`: `initialize(shares, threshold)` once; the root token, the first key and the first base64 key kept in that order; a failed call, a missing field or an empty list raises after what came before was kept; otherwise one probe, then the credentials file named by the date, holding the three values |
| Vault.VaultConfig.InitializeStep | vault/vault_setup.py:129-155 | the calls, the new state, the kept values, the written file and the outcome are those of `InitStepRun`: two probes, then the initializing branch when the server is not initialized, or else the outside token and keys, empty when missing |
| Vault.VaultConfig.UnsealStep | vault/vault_setup.py:156-164 | the calls, the new state and the outcome are those of `UnsealRun`: two sealed probes; when sealed, `submit_unseal_keys([key])`, then one more probe |
| Vault.VaultConfig.InitializeAndUnseal | vault/vault_setup.py:125-164 | the calls, the new state, the kept values, the written file and the outcome are those of `InitAndUnsealRun`: the initialize half, then, unless it raised, the unseal half with the base64 key just kept; the run makes at least one call, all of step 0, and stops at its first exception |
| Vault.InitServerStops | vault/vault_setup.py:133-151 | the initializing branch makes at least one call, all of step 0, and stops at its first exception |
| Vault.InitStepStops | vault/vault_setup.py:129-155 | the initialize half makes at least one call, all of step 0, and stops at its first exception |
| Vault.InitAndUnsealStops | vault/vault_setup.py:125-164 | initialize_and_unseal_vault makes at least one call, all of step 0, and stops at its first exception |
| Vault.InitStepSends | vault/vault_setup.py:129-155 | the initialize half never submits unseal keys; it calls `initialize` exactly when both probes completed on a server not initialized, right after them; it changes only the initialized flag, set exactly when `initialize` completed |
| Vault.UnsealSends | vault/vault_setup.py:156-164 | the unseal half never initializes; it submits exactly when both probes completed on a sealed server, always `[key]`; it changes only the sealed flag, cleared exactly when a submission got 200 |
| Vault.InitializesIffUninitialized | vault/vault_setup.py:130-134 | `initialize(shares, threshold)` is called exactly when both probes completed and the server was not initialized, and then right after the two probes |
| Vault.UnsealsIffSealed | vault/vault_setup.py:156-160 | `submit_unseal_keys` is called exactly when the initialize half returned, both sealed probes completed and the server was sealed |
| Vault.UnsealsWithKeptKey | vault/vault_setup.py:137-160 | every submission is the one-element list of the base64 key kept by the initialize half, from either branch |
| Vault.KeptValues | vault/vault_setup.py:133-155 | the kept token and keys are unchanged when a probe raised; the outside values, empty when missing, on an initialized server; the root token, first key and first base64 key of the result when this run initialized; the root token alone stays kept when a key list is empty |
| Vault.WrittenIffInitialized | vault/vault_setup.py:133-151 | the credentials file is written exactly when this run called `initialize`, the result held both key lists and the probe after it completed; it holds the kept token and keys under the dated name |
| Vault.InitAndUnsealState | vault/vault_setup.py:125-164 | the run changes only the two flags: initialized afterwards exactly when it was or this run's `initialize` completed; sealed afterwards exactly when it was and no submission got 200 |
| Vault.RerunOnlyProbes | vault/vault_setup.py:125-164 | on an initialized, unsealed server whose probes complete, the run only probes four times, changes nothing, writes no file and returns |
| Vault.ListThenCreateStops | vault/vault_setup.py:14-64 | a check-then-create step makes at least one call, all of the listing's step, and stops at its first exception |
| Vault.UserCallsStops | vault/vault_setup.py:66-97 | create_user makes at least one call, all of step 4, and stops at the first exception it does not catch |
| Vault.ListThenCreateState | vault/vault_setup.py:14-64 | a check-then-create step leaves the state as it was, or as the creation left it after a listing that completed without the entity; with a completed listing and a 204 creation it returns |
| Vault.EngineCallsKeep | vault/vault_setup.py:14-30 | create_secret_engine keeps both flags and every existing entry, adding an engine only at a free path; when every call completes it returns with the engine mounted |
| Vault.PolicyCallsKeep | vault/vault_setup.py:32-46 | create_policy keeps every existing entry, writing a policy only under a free name; when every call completes it returns with the policy present |
| Vault.AuthCallsKeep | vault/vault_setup.py:48-64 | create_auth_method keeps every existing entry, enabling a method only at a free path; when every call completes it returns with the method mounted |
| Vault.UserCallsState | vault/vault_setup.py:66-97 | create_user leaves the state as it was or as its last write left it; a completed listing and a 204 first write mean a return, with the user already listed when nothing changed |
| Vault.UserCallsKeep | vault/vault_setup.py:66-97 | create_user writes no entry but its own user's; when every call completes it returns with the user listed |
| Vault.VaultConfig.ConfigureVault | vault/vault_setup.py:166-176 | the client has the kept url and token; the calls, new state and outcome are those of `ConfigureRun`: the engine, policy, auth method and user steps with the configured arguments, each on the state and log position the one before left, until one raises |
| Vault.VaultConfig.EngineStops | vault/vault_setup.py:171 | create_secret_engine with the configured name and type kv makes at least one call, only configured step-1 calls, and stops at its first exception |
| Vault.VaultConfig.PolicyStops | vault/vault_setup.py:172 | create_policy with the configured name and policy text makes only configured step-2 calls and stops at its first exception |
| Vault.VaultConfig.AuthStops | vault/vault_setup.py:173 | create_auth_method at the configured path makes only configured step-3 calls and stops at its first exception |
| Vault.VaultConfig.UserStops | vault/vault_setup.py:174-176 | create_user with the configured user, password, policy and mount makes only configured step-4 calls and stops at its first exception, the caught listing and the retried write aside |
| Vault.VaultConfig.ConfigureStops | vault/vault_setup.py:166-176 | configure_vault's calls all have the configured payloads and belong to steps 1 to 4, the steps never go back, the run stops at its first exception, and a normal return means all four steps ran |
| Vault.VaultConfig.ConfigureKeepsAndEnsures | vault/vault_setup.py:166-176 | configure_vault changes neither flag and never changes or drops an existing engine, policy, auth method or any user but the configured one; when every call completes it returns with all four present |
| Vault.VaultConfig.ConfigureRerunOnlyLists | vault/vault_setup.py:166-176 | on a server that already has the engine, the policy, the method and the user, and whose listings complete, configure_vault makes only the four listings, changes nothing and returns |
| Vault.SetUpVault | vault/vault_setup.py:189-201 | the config keeps the settings; the first calls are those of initialize_and_unseal_vault from no token and no keys, whose kept values and written file it returns; when that raises, nothing else is sent; the calls after it are configure_vault's; the whole run stops at its first exception, its steps never go back, and a normal return means every step ran |
| Vault.Configure | vault/vault_setup.py:199-201 | configuring after an initialization that returned keeps the steps in order |
| Vault.PolicyEngineOfText | vault/vault_setup.py:178-186 | reading the engine back from the policy text gives the engine it was written for; the text is one `path "<engine>/*"` block whose fixed tail grants create, read, update, delete and list |
| Vault.PolicyTextOfEngine | vault/vault_setup.py:182-186 | a text that reads as a policy over an engine is exactly that engine's policy |
| Vault.PolicyTextInjective | vault/vault_setup.py:182-186 | different engines get different policies |
| Vault.Digits | vault/vault_setup.py:142 | a date field is written on exactly its width, in decimal digits |
| Vault.DigitsRoundTrip | vault/vault_setup.py:142 | reading the zero-padded digits back gives the number |
| Vault.FilenameRoundTrip | vault/vault_setup.py:142-143 | the filename is `vault_root_creds_` + `%d%m%Y` + `.json`, 30 characters long, and the date can be read back from it |
| Postgres.FirstFailure | database_keycloak_setup/db_setup.py:148-150 | the position found is that of the first rejected request, or the end when none is rejected |
| Postgres.RunAppend | database_keycloak_setup/db_setup.py:44-150 | running two parts in a row is running the first and, unless it raised, then the second |
| Postgres.RunSendsUpToFirstFailure | database_keycloak_setup/db_setup.py:44-150 | a run sends its requests up to and including the first rejected one; the catalog takes the effects of those before it; the outcome is that error, or a return when none fails |
| Postgres.Server.Send | database_keycloak_setup/db_setup.py:72-73 | a request is logged; a rejected one raises and changes nothing; an accepted one takes effect, and a lookup reports whether it found a row |
| Postgres.ConnectionManager.constructor | database_keycloak_setup/db_setup.py:7-8 | no connection at first |
| Postgres.ConnectionManager.GetCursor | database_keycloak_setup/db_setup.py:10-33 | one connect with the given parameters; the connection is kept only when it succeeds, and the cursor works on that database |
| Postgres.ConnectionManager.CloseConnection | database_keycloak_setup/db_setup.py:35-40 | the cursor is closed, then the connection |
| Postgres.ExecuteEach | database_keycloak_setup/db_setup.py:96-97 | the statements run in list order, and the first error stops the loop |
| Postgres.EnsureRole | database_keycloak_setup/db_setup.py:71-99 | the pg_roles lookup, then the six role statements exactly when it finds no row |
| Postgres.EnsureDatabase | database_keycloak_setup/db_setup.py:101-114 | the pg_database lookup, then CREATE DATABASE owned by the application role exactly when it finds no row |
| Postgres.EnsureSchema | database_keycloak_setup/db_setup.py:130-141 | the pg_namespace lookup, then CREATE SCHEMA IF NOT EXISTS with the role as owner exactly when it finds no row |
| Postgres.EnsureSchemas | database_keycloak_setup/db_setup.py:128-141 | the schemas are handled in list order, each seeing the namespaces created before it |
| Postgres.CreateUserAndDatabase | database_keycloak_setup/db_setup.py:43-150 | the requests and the catalog are those of the failure-free run, cut at the first error, which is re-raised |
| PostgresProperties.StepsInOrder | database_keycloak_setup/db_setup.py:71-141 | role statements, then database statements, then schema statements; CREATE DATABASE only after the role step |
| PostgresProperties.SessionSwitch | database_keycloak_setup/db_setup.py:116-126 | the admin session is closed (cursor, then connection) right before the application session opens as the application role on the application database; each statement runs on its session's database |
| PostgresProperties.RoleStatementsIffMissing | database_keycloak_setup/db_setup.py:72-97 | CREATE ROLE runs exactly when the role is missing, and then the six statements follow the lookup in list order; an existing role gets only the lookup |
| PostgresProperties.DatabaseCreatedIffMissing | database_keycloak_setup/db_setup.py:102-112 | CREATE DATABASE owned by the application role runs exactly when the database is missing, and no other database is created |
| PostgresProperties.SchemaCreatedIffMissing | database_keycloak_setup/db_setup.py:128-141 | a schema is created exactly when it is one of the two names and missing from the application database |
| PostgresProperties.SchemaIterationCreates | database_keycloak_setup/db_setup.py:130-141 | one iteration creates only its own schema, and only when that schema is missing |
| PostgresProperties.LookupsInOrder | database_keycloak_setup/db_setup.py:71-133 | the checks are the role, the database, the keycloak schema, then the application schema, whatever the catalog holds |
| PostgresProperties.CreationsFollowTheirCheck | database_keycloak_setup/db_setup.py:71-141 | every creation comes right after the lookup of the same name on the same database |
| PostgresProperties.RoleStageEffect | database_keycloak_setup/db_setup.py:72-97 | an accepted role step leaves the role in the catalog |
| PostgresProperties.DatabaseStageEffect | database_keycloak_setup/db_setup.py:102-112 | an accepted database step leaves the database in the catalog |
| PostgresProperties.SchemaStageEffect | database_keycloak_setup/db_setup.py:131-141 | an accepted schema iteration leaves the schema in the catalog |
| PostgresProperties.ProvisionedCatalog | database_keycloak_setup/db_setup.py:43-146 | a run without failures leaves the role, the database and both schemas in the catalog, and adds nothing else |
| PostgresProperties.SecondRunOnlyChecks | database_keycloak_setup/db_setup.py:71-143 | a second run after a run without failures executes only lookups and changes nothing |
| PostgresProperties.RaisedEndsWithTheFailure | database_keycloak_setup/db_setup.py:148-150 | a run that raises ends its log with the request that raised, a connect or a statement; nothing follows it, no close either |

## Left out

- HTTP transport, URLs, headers and the JSON encoding of Keycloak bodies are not modelled. A request carries only the fields the script sets.
- Inside `get_access_token`, only whether the reply holds an `access_token` is modelled. The token exchange itself is left out.
- The `hvac`, `requests` and `psycopg2` libraries are not modelled. The `sql.Identifier` and `sql.Literal` quoting is left out: statements carry the names and password as given. Autocommit and real connection handling are also left out.
- Reading the environment is left out: `KeycloakConfig.__init__`, the `get_cursor` defaults evaluated at import, the lookups in `create_user_and_database`, and both `__main__` blocks. Their values are parameters.
- `datetime.now()` is a `Date` parameter. The JSON dump and the file write are left out: the model records only the file's name and the three values it holds.
- `print` output and log text are left out. The Vault probes made inside print calls are still logged, because they are real calls.
- The real behaviour of the three servers is left out. Replies are inputs, and the state changes only through a logged request whose reply says it succeeded.
- The Keycloak server's own paging limits are left out. `Page` takes the first 100 available realm roles, the first 1000 available client roles and the first 1000 users, as the query strings ask. The plain user and group listings return everything.
- Role mappings and group memberships do not change the modelled Keycloak catalog. The effect of those PUTs and POSTs is not what the script decides on.
- Closing a cursor or a connection is taken never to raise.
- Vault.VaultConfig.UnsealStep: a 200 reply to `submit_unseal_keys` is taken to unseal the server. Vault's threshold, under which one share from a threshold above one would leave it sealed, is not modelled.
- The check-then-create race between two concurrent runs of a script is a concurrency matter and is not modelled.
- Keycloak.CollectRealmRoles: every listed realm role is taken to carry a `description`. The script indexes `role["description"]`, so a role without one raises `KeyError`; that failure is not modelled.
- Keycloak.CollectClientRoles: every listed client role is taken to carry a `description`. A missing one raises `KeyError` in the script; that failure is not modelled.
- Postgres.Server.Send: whether a statement fails depends only on the statement (`rejects`), not on when it is sent. A transient failure that hits one run of a request but not a later run of the same request is not modelled.
- `Keycloak.Listing.Message` and `Postgres.Query.Template`, `Args` and `Params` record the error texts and the SQL text as the script writes them. They are documentation: no contract or proof depends on them.
