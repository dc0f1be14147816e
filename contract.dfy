/** The command handler of the solver-flows contract (src/contract.rs): a keyed
    table from user id to user record, changed only by load-modify-store on one key. */
module Contract {
  import opened SolverFlows

  /** The one field an `update_*` method replaces, with its new value. */
  datatype FieldUpdate =
    | SetReactFlow(reactFlow: string)
    | SetSandboxDetails(sandboxDetails: AppSandboxData)
    | SetNodesData(nodesData: seq<AppNodesData>)
    | SetDeployedApiDetails(deployedApiDetails: AppDeployedApiData)
    | SetIsPublic(isPublic: bool)

  /** Whether `app` already holds the value `u` writes, in the field `u` names. */
  predicate Holds(app: App, u: FieldUpdate)
  {
    match u
    case SetReactFlow(v) => app.reactFlow == v
    case SetSandboxDetails(v) => app.sandboxDetails == v
    case SetNodesData(v) => app.nodesData == v
    case SetDeployedApiDetails(v) => app.deployedApiDetails == v
    case SetIsPublic(v) => app.isPublic == v
  }

  /** Whether `a` and `b` agree on every field except the one `u` names. */
  predicate SameOutside(a: App, b: App, u: FieldUpdate)
  {
    a.appId == b.appId && a.name == b.name && a.description == b.description
    && (u.SetIsPublic? || a.isPublic == b.isPublic)
    && (u.SetReactFlow? || a.reactFlow == b.reactFlow)
    && (u.SetNodesData? || a.nodesData == b.nodesData)
    && (u.SetSandboxDetails? || a.sandboxDetails == b.sandboxDetails)
    && (u.SetDeployedApiDetails? || a.deployedApiDetails == b.deployedApiDetails)
  }

  /** The assignment in the body of an `update_*` loop: the named field is
      replaced wholesale and nothing else changes. */
  function Patch(app: App, u: FieldUpdate): (r: App)
    ensures Holds(r, u) && SameOutside(app, r, u)
    ensures Holds(app, u) ==> r == app
  {
    match u
    case SetReactFlow(v) => app.(reactFlow := v)
    case SetSandboxDetails(v) => app.(sandboxDetails := v)
    case SetNodesData(v) => app.(nodesData := v)
    case SetDeployedApiDetails(v) => app.(deployedApiDetails := v)
    case SetIsPublic(v) => app.(isPublic := v)
  }

  /** One iteration of an `update_*` loop: patch the app only if its id matches. */
  function PatchIfMatching(app: App, appId: string, u: FieldUpdate): App
  {
    if app.appId == appId then Patch(app, u) else app
  }

  /** What an `update_*` loop leaves in the app list: every app whose id is
      `appId` patched, in place, and every other app as it was. */
  function UpdateMatching(apps: seq<App>, appId: string, u: FieldUpdate): (r: seq<App>)
    ensures |r| == |apps|
    ensures forall k :: 0 <= k < |apps| && apps[k].appId == appId ==>
      Holds(r[k], u) && SameOutside(apps[k], r[k], u)
    ensures forall k :: 0 <= k < |apps| && apps[k].appId != appId ==> r[k] == apps[k]
    decreases |apps|
  {
    if apps == [] then []
    else [PatchIfMatching(apps[0], appId, u)] + UpdateMatching(apps[1..], appId, u)
  }

  /** The shared `for app in &mut auth_user.apps` loop of the five `update_*`
      methods, walking the list front to back and assigning the field in place. */
  method PatchMatchingApps(apps: seq<App>, appId: string, u: FieldUpdate) returns (r: seq<App>)
    ensures r == UpdateMatching(apps, appId, u)
  {
    r := apps;
    var i := 0;
    while i < |r|
      invariant 0 <= i <= |r| == |apps|
      invariant forall k :: 0 <= k < i ==> r[k] == PatchIfMatching(apps[k], appId, u)
      invariant forall k :: i <= k < |r| ==> r[k] == apps[k]
    {
      if r[i].appId == appId {
        r := r[i := Patch(r[i], u)];
      }
      i := i + 1;
    }
  }

  /** The app `CreateApp` appends: the given id, name and description, private,
      with an empty flow, no nodes, empty sandbox strings and an unnamed API with no functions. */
  function NewApp(appId: string, name: string, description: string): (a: App)
    ensures a.appId == appId && a.name == name && a.description == description
    ensures !a.isPublic && a.reactFlow == "" && a.nodesData == []
    ensures a.sandboxDetails.id == "" && a.sandboxDetails.portUrl == "" && a.sandboxDetails.sandboxUrl == ""
    ensures a.deployedApiDetails.name == "" && a.deployedApiDetails.functions == []
  {
    App(appId, name, description, false, "", [],
        AppSandboxData("", "", ""), AppDeployedApiData("", []))
  }

  /** The field update carried by one of the five `Update*` operations. */
  function FieldUpdateOf(op: Operation): (u: FieldUpdate)
    requires IsFieldUpdate(op)
  {
    match op
    case UpdateReactFlow(_, _, v) => SetReactFlow(v)
    case UpdateNodesData(_, _, v) => SetNodesData(v)
    case UpdateSandboxDetails(_, _, v) => SetSandboxDetails(v)
    case UpdateDeployedApiDetails(_, _, v) => SetDeployedApiDetails(v)
    case UpdateIsPublic(_, _, v) => SetIsPublic(v)
  }

  /** Whether `op` runs to completion on `flows`: every operation but
      `CreateUser` loads its user first and panics when the user is missing. */
  predicate Enabled(flows: map<string, AuthUser>, op: Operation)
  {
    op.CreateUser? || op.authId in flows
  }

  /** The table after `execute_operation(op)` completes: one key is written and no other. */
  function Apply(flows: map<string, AuthUser>, op: Operation): (r: map<string, AuthUser>)
    requires Enabled(flows, op)
    ensures r.Keys == flows.Keys + {op.authId}
    ensures forall id :: id in flows && id != op.authId ==> r[id] == flows[id]
    ensures op.CreateUser? ==> r[op.authId] == AuthUser(op.authId, [])
    ensures !op.CreateUser? ==> r[op.authId].authId == flows[op.authId].authId
    ensures op.CreateApp? ==>
      r[op.authId].apps == flows[op.authId].apps + [NewApp(op.appId, op.name, op.description)]
    ensures IsFieldUpdate(op) ==>
      r[op.authId].apps == UpdateMatching(flows[op.authId].apps, op.appId, FieldUpdateOf(op))
    ensures KeysMatch(flows) ==> KeysMatch(r)
  {
    match op
    case CreateUser(id) => flows[id := NewAuthUser(id, [])]
    case CreateApp(id, appId, name, description) =>
      var user := flows[id];
      flows[id := user.(apps := user.apps + [NewApp(appId, name, description)])]
    case _ =>
      var user := flows[op.authId];
      flows[op.authId := user.(apps := UpdateMatching(user.apps, op.appId, FieldUpdateOf(op)))]
  }

  /** An update whose app id matches no app stores the record back unchanged. */
  lemma {:induction false} UpdateMatchingNoMatch(apps: seq<App>, appId: string, u: FieldUpdate)
    requires forall k :: 0 <= k < |apps| ==> apps[k].appId != appId
    ensures UpdateMatching(apps, appId, u) == apps
  {
    if apps != [] {
      UpdateMatchingNoMatch(apps[1..], appId, u);
      assert apps == [apps[0]] + apps[1..];
    }
  }

  /** Replacing a field wholesale twice is the same as replacing it once. */
  lemma {:induction false} UpdateMatchingIdempotent(apps: seq<App>, appId: string, u: FieldUpdate)
    ensures UpdateMatching(UpdateMatching(apps, appId, u), appId, u) == UpdateMatching(apps, appId, u)
  {
    if apps != [] {
      var once := UpdateMatching(apps, appId, u);
      UpdateMatchingIdempotent(apps[1..], appId, u);
      assert once[1..] == UpdateMatching(apps[1..], appId, u);
      assert once == [once[0]] + once[1..];
    }
  }

  /** Applying the same `Update*` operation twice leaves the table as applying it once. */
  lemma ApplyUpdateIdempotent(flows: map<string, AuthUser>, op: Operation)
    requires IsFieldUpdate(op) && op.authId in flows
    ensures Apply(Apply(flows, op), op) == Apply(flows, op)
  {
    UpdateMatchingIdempotent(flows[op.authId].apps, op.appId, FieldUpdateOf(op));
  }

  /** An `Update*` operation whose app id matches none of the user's apps leaves the table as it was. */
  lemma ApplyUpdateNoMatch(flows: map<string, AuthUser>, op: Operation)
    requires IsFieldUpdate(op) && op.authId in flows
    requires forall a :: a in flows[op.authId].apps ==> a.appId != op.appId
    ensures Apply(flows, op) == flows
  {
    var apps := flows[op.authId].apps;
    UpdateMatchingNoMatch(apps, op.appId, FieldUpdateOf(op));
  }

  /** `CreateApp` never rejects a duplicate id: the list grows by exactly one
      and the new last app carries the given id even when an earlier app already does. */
  lemma ApplyCreateAppAppends(flows: map<string, AuthUser>, op: Operation)
    requires op.CreateApp? && op.authId in flows
    ensures |Apply(flows, op)[op.authId].apps| == |flows[op.authId].apps| + 1
    ensures Apply(flows, op)[op.authId].apps[..|flows[op.authId].apps|] == flows[op.authId].apps
    ensures Apply(flows, op)[op.authId].apps[|flows[op.authId].apps|].appId == op.appId
  {
    var apps := flows[op.authId].apps;
    assert (apps + [NewApp(op.appId, op.name, op.description)])[..|apps|] == apps;
  }

  /** How `execute_operation` ends: its changes are committed, or it panicked
      before writing anything and the host discards the operation. */
  datatype Outcome = Committed | Panicked

  /** The contract's state: the `flows` map of `SolverFlowsState`. */
  class SolverFlowsContract {
    var flows: map<string, AuthUser>

    /** The object invariant: every record is stored under its own `auth_id`. */
    predicate Valid()
      reads this
    {
      KeysMatch(flows)
    }

    /** A freshly instantiated application holds no users. */
    constructor ()
      ensures Valid() && flows == map[]
    {
      flows := map[];
    }

    /** `execute_operation`: dispatch on the seven operations. */
    method ExecuteOperation(op: Operation) returns (outcome: Outcome)
      requires Valid()
      modifies this
      ensures Valid()
      ensures outcome == Committed <==> Enabled(old(flows), op)
      ensures outcome == Committed ==> flows == Apply(old(flows), op)
      ensures outcome == Panicked ==> flows == old(flows)
    {
      if !Enabled(flows, op) {
        return Panicked;
      }
      ghost var before := flows;
      match op {
        case CreateUser(authId) =>
          CreateNewUser(authId, NewAuthUser(authId, []));
        case CreateApp(authId, appId, name, description) =>
          var authUser := GetAuthUser(authId);
          authUser := authUser.(apps := authUser.apps + [NewApp(appId, name, description)]);
          flows := flows[authId := authUser];
        case UpdateReactFlow(authId, appId, reactFlow) =>
          UpdateReactFlow(authId, appId, reactFlow);
        case UpdateSandboxDetails(authId, appId, sandboxDetails) =>
          UpdateSandboxDetails(authId, appId, sandboxDetails);
        case UpdateNodesData(authId, appId, nodesData) =>
          UpdateNodesData(authId, appId, nodesData);
        case UpdateDeployedApiDetails(authId, appId, deployedApiDetails) =>
          UpdateDeployedApiDetails(authId, appId, deployedApiDetails);
        case UpdateIsPublic(authId, appId, isPublic) =>
          UpdateIsPublic(authId, appId, isPublic);
      }
      assert flows == Apply(before, op);
      outcome := Committed;
    }

    /** `create_new_user`: store `data` under `authId`, replacing whatever was there. */
    method CreateNewUser(authId: string, data: AuthUser)
      modifies this
      ensures flows == old(flows)[authId := data]
      ensures old(Valid()) && data.authId == authId ==> Valid()
    {
      flows := flows[authId := data];
    }

    /** `get_auth_user`: load the stored record; a missing user is a panic. */
    method GetAuthUser(authId: string) returns (authUser: AuthUser)
      requires authId in flows
      ensures authUser == flows[authId]
      ensures Valid() ==> authUser.authId == authId
    {
      authUser := flows[authId];
    }

    /** Load the user, run the shared update loop for `u`, store the record back. */
    method UpdateField(authId: string, appId: string, u: FieldUpdate)
      requires authId in flows
      modifies this
      ensures flows == old(flows)[authId :=
        old(flows)[authId].(apps := UpdateMatching(old(flows)[authId].apps, appId, u))]
      ensures old(Valid()) ==> Valid()
    {
      var authUser := GetAuthUser(authId);
      var apps := PatchMatchingApps(authUser.apps, appId, u);
      flows := flows[authId := authUser.(apps := apps)];
    }

    /** `update_react_flow`. */
    method UpdateReactFlow(authId: string, appId: string, reactFlow: string)
      requires authId in flows
      modifies this
      ensures flows == old(flows)[authId :=
        old(flows)[authId].(apps := UpdateMatching(old(flows)[authId].apps, appId, SetReactFlow(reactFlow)))]
      ensures old(Valid()) ==> Valid()
    {
      UpdateField(authId, appId, SetReactFlow(reactFlow));
    }

    /** `update_sandbox_details`. */
    method UpdateSandboxDetails(authId: string, appId: string, sandboxDetails: AppSandboxData)
      requires authId in flows
      modifies this
      ensures flows == old(flows)[authId :=
        old(flows)[authId].(apps := UpdateMatching(old(flows)[authId].apps, appId, SetSandboxDetails(sandboxDetails)))]
      ensures old(Valid()) ==> Valid()
    {
      UpdateField(authId, appId, SetSandboxDetails(sandboxDetails));
    }

    /** `update_nodes_data`. */
    method UpdateNodesData(authId: string, appId: string, nodesData: seq<AppNodesData>)
      requires authId in flows
      modifies this
      ensures flows == old(flows)[authId :=
        old(flows)[authId].(apps := UpdateMatching(old(flows)[authId].apps, appId, SetNodesData(nodesData)))]
      ensures old(Valid()) ==> Valid()
    {
      UpdateField(authId, appId, SetNodesData(nodesData));
    }

    /** `update_deployed_api_details`. */
    method UpdateDeployedApiDetails(authId: string, appId: string, deployedApiDetails: AppDeployedApiData)
      requires authId in flows
      modifies this
      ensures flows == old(flows)[authId :=
        old(flows)[authId].(apps := UpdateMatching(old(flows)[authId].apps, appId, SetDeployedApiDetails(deployedApiDetails)))]
      ensures old(Valid()) ==> Valid()
    {
      UpdateField(authId, appId, SetDeployedApiDetails(deployedApiDetails));
    }

    /** `update_is_public`. */
    method UpdateIsPublic(authId: string, appId: string, isPublic: bool)
      requires authId in flows
      modifies this
      ensures flows == old(flows)[authId :=
        old(flows)[authId].(apps := UpdateMatching(old(flows)[authId].apps, appId, SetIsPublic(isPublic)))]
      ensures old(Valid()) ==> Valid()
    {
      UpdateField(authId, appId, SetIsPublic(isPublic));
    }
  }
}
