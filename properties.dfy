/** What the queries of src/service.rs observe after the commands of
    src/contract.rs: the command handler updates every matching app, the
    query returns the first one. */
module Properties {
  import opened SolverFlows
  import opened Contract
  import opened Service

  /** `FirstMatch` is determined by its contract: the one index before which
      nothing matches and at which (if inside the list) the id matches. */
  lemma FirstMatchUnique(apps: seq<App>, appId: string, i: nat)
    requires i <= |apps|
    requires forall j :: 0 <= j < i ==> apps[j].appId != appId
    requires i < |apps| ==> apps[i].appId == appId
    ensures FirstMatch(apps, appId) == i
  {
  }

  /** Appending an app finds the same first match as before, or the new app if
      the old list had none. */
  lemma FindAppAfterAppend(apps: seq<App>, x: App, appId: string)
    ensures FindApp(apps + [x], appId) ==
      if FindApp(apps, appId).Some? then FindApp(apps, appId)
      else if x.appId == appId then Some(x)
      else None
  {
    var i := FirstMatch(apps, appId);
    var longer := apps + [x];
    if i < |apps| {
      FirstMatchUnique(longer, appId, i);
    } else if x.appId == appId {
      FirstMatchUnique(longer, appId, |apps|);
    } else {
      FirstMatchUnique(longer, appId, |longer|);
    }
  }

  /** An update keeps every app id, so any id's first match stays at the same position. */
  lemma FirstMatchAfterUpdate(apps: seq<App>, appId: string, u: FieldUpdate, queried: string)
    ensures FirstMatch(UpdateMatching(apps, appId, u), queried) == FirstMatch(apps, queried)
  {
    var updated := UpdateMatching(apps, appId, u);
    assert forall k :: 0 <= k < |apps| ==> updated[k].appId == apps[k].appId;
    FirstMatchUnique(updated, queried, FirstMatch(apps, queried));
  }

  /** After `CreateUser(id)`, `get_auth_user(id)` is the user with no apps and
      `get_app` finds no app id, whatever was stored before. */
  lemma CreateUserThenGetAuthUser(flows: map<string, AuthUser>, authId: string, appId: string)
    ensures GetAuthUser(Apply(flows, CreateUser(authId)), authId) == AuthUser(authId, [])
    ensures GetApp(Apply(flows, CreateUser(authId)), authId, appId) == None
  {
  }

  /** After `CreateApp`, `get_app` returns the earlier app with that id if there
      was one, and otherwise the new app with its defaults. */
  lemma CreateAppThenGetApp(flows: map<string, AuthUser>, op: Operation)
    requires op.CreateApp? && op.authId in flows
    ensures GetApp(Apply(flows, op), op.authId, op.appId) ==
      if GetApp(flows, op.authId, op.appId).Some? then GetApp(flows, op.authId, op.appId)
      else Some(NewApp(op.appId, op.name, op.description))
  {
    FindAppAfterAppend(flows[op.authId].apps, NewApp(op.appId, op.name, op.description), op.appId);
  }

  /** After an update loop on `appId`, `find` for that id returns the app it
      returned before with the field replaced. */
  lemma FindAppAfterUpdate(apps: seq<App>, appId: string, u: FieldUpdate)
    ensures FindApp(UpdateMatching(apps, appId, u), appId) ==
      if FindApp(apps, appId).Some? then Some(Patch(FindApp(apps, appId).value, u)) else None
  {
    FirstMatchAfterUpdate(apps, appId, u, appId);
  }

  /** After an `Update*` on `appId`, `get_app` for that id returns the app it
      returned before with the field replaced, and holds the new value. */
  lemma UpdateThenGetApp(flows: map<string, AuthUser>, op: Operation)
    requires IsFieldUpdate(op) && op.authId in flows
    ensures GetApp(Apply(flows, op), op.authId, op.appId) ==
      if GetApp(flows, op.authId, op.appId).Some?
      then Some(Patch(GetApp(flows, op.authId, op.appId).value, FieldUpdateOf(op)))
      else None
    ensures GetApp(Apply(flows, op), op.authId, op.appId).Some? ==>
      Holds(GetApp(Apply(flows, op), op.authId, op.appId).value, FieldUpdateOf(op))
  {
    var u := FieldUpdateOf(op);
    var apps := flows[op.authId].apps;
    assert Apply(flows, op)[op.authId].apps == UpdateMatching(apps, op.appId, u);
    FindAppAfterUpdate(apps, op.appId, u);
  }

  /** An `Update*` on one app id does not change what `get_app` returns for another. */
  lemma UpdateLeavesOtherAppIds(flows: map<string, AuthUser>, op: Operation, other: string)
    requires IsFieldUpdate(op) && op.authId in flows && other != op.appId
    ensures GetApp(Apply(flows, op), op.authId, other) == GetApp(flows, op.authId, other)
  {
    var apps := flows[op.authId].apps;
    FirstMatchAfterUpdate(apps, op.appId, FieldUpdateOf(op), other);
  }

  /** The handler updates every duplicate, not only the one `get_app` finds:
      an app with the same id later in the list also holds the new value. */
  lemma UpdateReachesEveryDuplicate(flows: map<string, AuthUser>, op: Operation, k: nat)
    requires IsFieldUpdate(op) && op.authId in flows
    requires k < |flows[op.authId].apps| && flows[op.authId].apps[k].appId == op.appId
    ensures FirstMatch(flows[op.authId].apps, op.appId) <= k
    ensures Holds(Apply(flows, op)[op.authId].apps[k], FieldUpdateOf(op))
  {
  }

  /** No operation changes what the queries see for another user. */
  lemma OtherUsersUnaffected(flows: map<string, AuthUser>, op: Operation, authId: string, appId: string)
    requires Enabled(flows, op) && authId in flows && authId != op.authId
    ensures GetAuthUser(Apply(flows, op), authId) == GetAuthUser(flows, authId)
    ensures GetApp(Apply(flows, op), authId, appId) == GetApp(flows, authId, appId)
  {
  }

  /** The walk-through: create a user, give them an app, publish it, and read it back. */
  lemma PublishScenario(flows: map<string, AuthUser>)
    ensures
      var s1 := Apply(flows, CreateUser("alice"));
      var s2 := Apply(s1, CreateApp("alice", "app1", "Flow A", "desc"));
      var s3 := Apply(s2, UpdateIsPublic("alice", "app1", true));
      GetApp(s3, "alice", "app1") == Some(NewApp("app1", "Flow A", "desc").(isPublic := true))
  {
    var s1 := Apply(flows, CreateUser("alice"));
    var op2 := CreateApp("alice", "app1", "Flow A", "desc");
    var s2 := Apply(s1, op2);
    CreateAppThenGetApp(s1, op2);
    UpdateThenGetApp(s2, UpdateIsPublic("alice", "app1", true));
  }

  /** The same walk-through run against the contract object, plus a `CreateApp`
      for a user nobody created, which panics and stores nothing. */
  method RunPublishScenario() returns (app: Option<App>, bobOutcome: Outcome, bobStored: bool)
    ensures app == Some(NewApp("app1", "Flow A", "desc").(isPublic := true))
    ensures bobOutcome == Panicked && !bobStored
  {
    var contract := new SolverFlowsContract();
    var outcome := contract.ExecuteOperation(CreateUser("alice"));
    outcome := contract.ExecuteOperation(CreateApp("alice", "app1", "Flow A", "desc"));
    outcome := contract.ExecuteOperation(UpdateIsPublic("alice", "app1", true));
    PublishScenario(map[]);
    app := GetApp(contract.flows, "alice", "app1");
    bobOutcome := contract.ExecuteOperation(CreateApp("bob", "app1", "Flow B", "desc"));
    bobStored := "bob" in contract.flows;
  }
}
