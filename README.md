# solver-flows: a Dafny model of the contract's command handler and queries

The solver-flows application keeps one table, `flows`. It maps a user id (`auth_id`) to a user record (`AuthUserType`). A user record holds an ordered list of apps (`AppType`). Each app carries a flow graph, nodes, sandbox metadata and a deployed-API descriptor.

The contract accepts seven operations. Each one loads the record under one key, changes it in memory and stores the whole record back:
- `CreateUser` overwrites the key with a user that has no apps.
- `CreateApp` appends one app with default fields.
- The five `update_*` operations replace one field of every app whose `app_id` matches.

The query service reads the table. `get_auth_user` returns a stored record. `get_app` returns the first app with a given id.

Files:
- `types.dfy`, module `SolverFlows`: the records and enums of `src/lib.rs`, the `AuthUserType::new` constructor and the `Default` derive. Renamed for Dafny: the `OutDataInterface` variants `String`, `Number`, `Boolean`, `Object` become `StringOut`, `NumberOut`, `BooleanOut`, `ObjectOut`; `RequestType::String` becomes `StringRequest` (so the two `String` variants do not clash); the fields `_id`, `_key`, `_type` and `module` become `id`, `key`, `inputType` and `moduleName`; all other fields are written in camelCase. Rust's derived `PartialEq` is Dafny's structural datatype equality.
- `contract.dfy`, module `Contract`: the `SolverFlowsContract` class with its `flows: map<string, AuthUser>` field and the methods of `src/contract.rs`. Each method's `ensures` ties the new `flows` to the old one. `Apply` is the pure specification of one `execute_operation`. `UpdateMatching` is the pure specification of the `for app in &mut auth_user.apps` loop.
- `service.dfy`, module `Service`: `get_auth_user` and `get_app` as functions of the table. Queries only read the table, so they cannot change it.
- `properties.dfy`, module `Properties`: what the queries observe after each command, and the walk-through scenario.

Modelling decisions:
- A missing user makes `get_auth_user` panic before anything is written. The class's internal methods therefore `require` the key to be present. `ExecuteOperation` checks for it itself. It returns `Panicked` and leaves `flows` untouched when the key is absent, which is what the host does when it discards a panicking operation.
- The five `update_*` methods in the source share one loop, differing only in the field they assign. In the model they call one loop method, `PatchMatchingApps`. A `FieldUpdate` value names the field and carries its new value.
- `Valid()` is a class invariant: every record is stored under its own `auth_id`. `ExecuteOperation` preserves it.
- `get_app` unwraps the stored user (src/service.rs:117), so a missing user panics there too; `GetApp` requires the user to exist.

## Model

| member | source | states |
|---|---|---|
| SolverFlows.NewAuthUser | src/lib.rs:62-65 | `AuthUserType::new(id, apps)` holds exactly `id` and `apps` |
| SolverFlows.DefaultAuthUser | src/lib.rs:56-60 | the derived `Default` is the empty id with no apps, the same as `new("", [])` |
| SolverFlows.AppIdOf | src/lib.rs:19-54 | every operation except `CreateUser` carries an app id, and `CreateUser` carries none |
| SolverFlows.OperationKinds | src/lib.rs:19-54 | each of the seven operations is either `CreateUser`, `CreateApp` or one of the five field updates, and never more than one |
| SolverFlows.AllNodeTypes | src/lib.rs:134-138 | `NodeType` lists two distinct values |
| SolverFlows.NodeTypeIndex | src/lib.rs:134-138 | every `NodeType` value is among those two |
| SolverFlows.AllOutDataInterfaces | src/lib.rs:139-145 | `OutDataInterface` lists four distinct values |
| SolverFlows.OutDataInterfaceIndex | src/lib.rs:139-145 | every `OutDataInterface` value is among those four |
| SolverFlows.AllRequestTypes | src/lib.rs:147-155 | `RequestType` lists six distinct values |
| SolverFlows.RequestTypeIndex | src/lib.rs:147-155 | every `RequestType` value is among those six |
| SolverFlows.AppEquality | src/lib.rs:68-78 | the derived equality on apps holds exactly when all eight fields are equal |
| SolverFlows.AuthUserEquality | src/lib.rs:56-60 | two user records are equal exactly when their ids are equal and their app lists are equal element by element |
| Contract.Patch | src/contract.rs:143-147 | the loop body's assignment sets the named field to the new value and leaves every other field, the app id included, as it was |
| Contract.UpdateMatching | src/contract.rs:143-147 | the updated list keeps its length and order; every app with the matching id, not only the first, gets the new field value with its other fields kept; every other app is unchanged |
| Contract.PatchMatchingApps | src/contract.rs:143-147 | the in-place loop over the apps, which is shared by all five `update_*` methods, yields exactly `UpdateMatching` of the old list |
| Contract.UpdateMatchingNoMatch | src/contract.rs:143-148 | when no app id matches, the stored list equals the old list |
| Contract.UpdateMatchingIdempotent | src/contract.rs:186-192 | running the same update loop twice gives the same list as running it once |
| Contract.NewApp | src/contract.rs:57-70 | the appended app has the given id, name and description. It is not public, its flow and nodes are empty, all three sandbox strings are empty, and its API has an empty name and no functions |
| Contract.Apply | src/contract.rs:42-117 | a completed operation writes only its own `auth_id` key. `CreateUser` stores `{auth_id, []}` whether or not a record existed. `CreateApp` stores the old apps followed by the new app. An update stores `UpdateMatching` of the old apps. The record's `auth_id` is never changed, and records stored under their own id stay so |
| Contract.ApplyUpdateIdempotent | src/contract.rs:140-150 | applying the same `Update*` operation twice leaves the table as applying it once |
| Contract.ApplyUpdateNoMatch | src/contract.rs:140-150 | an `Update*` whose app id matches none of the user's apps leaves the table unchanged |
| Contract.ApplyCreateAppAppends | src/contract.rs:56-73 | `CreateApp` does not check for a duplicate id: the list grows by exactly one, the old apps are kept as a prefix, and the last app has the given id |
| Contract.SolverFlowsContract.constructor | src/state.rs:9-11 | a fresh application state has an empty `flows` map |
| Contract.SolverFlowsContract.ExecuteOperation | src/contract.rs:42-117 | the operation commits exactly when the user exists or the operation is `CreateUser`. A committed operation leaves `flows == Apply(old flows, op)`. A panicking operation leaves `flows` unchanged. The key invariant is preserved |
| Contract.SolverFlowsContract.CreateNewUser | src/contract.rs:129-131 | stores the record under the key, replacing any previous one, and changes no other key; storing a record under its own id preserves `Valid()` |
| Contract.SolverFlowsContract.GetAuthUser | src/contract.rs:133-137 | requires the user to exist, which is the panic; returns the stored record, whose id is the key |
| Contract.SolverFlowsContract.UpdateField | src/contract.rs:140-150 | load, update loop, store: the user's apps become `UpdateMatching` of the old apps, and nothing else changes; the key invariant `Valid()` is preserved |
| Contract.SolverFlowsContract.UpdateReactFlow | src/contract.rs:140-150 | replaces `react_flow` on every matching app of that user, and nothing else changes; the key invariant `Valid()` is preserved |
| Contract.SolverFlowsContract.UpdateSandboxDetails | src/contract.rs:152-161 | replaces `sandbox_details` on every matching app of that user, and nothing else changes; the key invariant `Valid()` is preserved |
| Contract.SolverFlowsContract.UpdateNodesData | src/contract.rs:163-173 | replaces `nodes_data` on every matching app of that user, and nothing else changes; the key invariant `Valid()` is preserved |
| Contract.SolverFlowsContract.UpdateDeployedApiDetails | src/contract.rs:175-184 | replaces `deployed_api_details` on every matching app of that user, and nothing else changes; the key invariant `Valid()` is preserved |
| Contract.SolverFlowsContract.UpdateIsPublic | src/contract.rs:186-195 | replaces `is_public` on every matching app of that user, and nothing else changes; the key invariant `Valid()` is preserved |
| Service.FirstMatch | src/service.rs:118 | the position of the first app with the id: no earlier app matches, and the app at that position matches, or the position is the end of the list |
| Service.FindApp | src/service.rs:118 | `find(...).cloned()` gives `None` exactly when no app has the id. Otherwise it gives an element of the list that has the id and has no earlier match |
| Service.GetAuthUser | src/service.rs:112-114 | requires the user to exist (the `unwrap`); returns the stored record, whose id is the key when records are stored under their own id |
| Service.GetApp | src/service.rs:116-119 | requires the user to exist (the `unwrap`). Returns the first app of that user, in list order, with the id, or `None` exactly when no app of that user has the id |
| Properties.FirstMatchUnique | src/service.rs:118 | the first-match position is the only index satisfying its contract |
| Properties.FindAppAfterAppend | src/contract.rs:72 | after an append, `find` returns the old first match if there was one, and otherwise the appended app when its id matches |
| Properties.FirstMatchAfterUpdate | src/contract.rs:143-147 | an update loop keeps every app id, so the first match for any id stays at the same position |
| Properties.CreateUserThenGetAuthUser | src/contract.rs:44-48 | after `CreateUser(id)`, `get_auth_user(id)` is `{id, []}` and `get_app(id, a)` finds nothing for every app id `a`, even if apps were stored before |
| Properties.CreateAppThenGetApp | src/contract.rs:50-75 | after `CreateApp`, `get_app` returns the earlier app with that id if there was one, and otherwise the new app with its defaults |
| Properties.FindAppAfterUpdate | src/contract.rs:143-147 | after an update loop on an id, `find` for that id returns the old first match with the field replaced, or `None` if there was none |
| Properties.UpdateThenGetApp | src/service.rs:116-119 | after an update, `get_app` finds an app exactly when it did before; the app it finds is the old first match with the field replaced, and it holds the new value |
| Properties.UpdateLeavesOtherAppIds | src/contract.rs:143-147 | an update on one app id does not change what `get_app` returns for any other id |
| Properties.UpdateReachesEveryDuplicate | src/contract.rs:143-147 | every app with the matching id holds the new value, including a duplicate that comes after the first match (the one `get_app` would return) |
| Properties.OtherUsersUnaffected | src/contract.rs:148 | no operation changes what either query returns for another user |
| Properties.PublishScenario | src/contract.rs:42-117 | create user "alice", create app "app1" ("Flow A", "desc"), make it public: `get_app` then returns that app with `is_public` true and every other field at its default |
| Properties.RunPublishScenario | src/contract.rs:42-117 | the same sequence run on the contract object gives the same app. A `CreateApp` for a user that was never created panics and stores nothing |

## Left out

- Host lifecycle: `load`, `store`/`save`, `instantiate` and `application_parameters` (src/contract.rs:29-40, src/contract.rs:123) are host persistence and commit. `flows` is a plain field, and a fresh object stands for a freshly instantiated application.
- `execute_message` (src/contract.rs:119-121) panics on every cross-chain message. Messaging is not modelled.
- Storage and codec failures: the `Result` layer of `MapView::get` and the `insert(...).expect(...)` calls fail only on storage or serialisation errors. The model treats `get` as a map lookup and `insert` as a map update that always succeeds.
- `MutationRoot` (src/service.rs:53-102) only serialises `Operation` values with an external codec. GraphQL schema building and `handle_query` (src/service.rs:40-50), the `Arc<Mutex<...>>` handles, and the serde/GraphQL derive attributes are transport and wire-format concerns.
- async/await: every operation is modelled as synchronous. The host runs one operation at a time.
- Update in place: Rust mutates `auth_user.apps` through `&mut` references. The model walks an immutable sequence and reassigns it element by element, which has the same observable result because the record is a local copy that is stored back whole.
