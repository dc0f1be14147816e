/** The read-only query side of the solver-flows application (`QueryRoot` in
    src/service.rs). Queries only read the table, so they are functions of it. */
module Service {
  import opened SolverFlows

  /** The position of the first app whose id is `appId`, or `|apps|` when none matches. */
  function FirstMatch(apps: seq<App>, appId: string): (i: nat)
    ensures i <= |apps|
    ensures forall j :: 0 <= j < i ==> apps[j].appId != appId
    ensures i < |apps| ==> apps[i].appId == appId
    decreases |apps|
  {
    if apps == [] then 0
    else if apps[0].appId == appId then 0
    else 1 + FirstMatch(apps[1..], appId)
  }

  /** `apps.iter().find(|app| app.app_id == app_id).cloned()`: the first app in
      list order with id `appId`, or `None` when there is none. */
  function FindApp(apps: seq<App>, appId: string): (r: Option<App>)
    ensures r.None? <==> forall j :: 0 <= j < |apps| ==> apps[j].appId != appId
    ensures r.Some? ==> r.value in apps && r.value.appId == appId
    ensures r.Some? ==> exists i :: (0 <= i < |apps| && apps[i] == r.value
      && forall j :: 0 <= j < i ==> apps[j].appId != appId)
  {
    var i := FirstMatch(apps, appId);
    if i < |apps| then Some(apps[i]) else None
  }

  /** `get_auth_user`: the stored record; unwrapping a missing user panics. */
  function GetAuthUser(flows: map<string, AuthUser>, authId: string): (u: AuthUser)
    requires authId in flows
    ensures u == flows[authId]
    ensures KeysMatch(flows) ==> u.authId == authId
  {
    flows[authId]
  }

  /** `get_app`: the first app of the stored user with id `appId`; the user must exist. */
  function GetApp(flows: map<string, AuthUser>, authId: string, appId: string): (r: Option<App>)
    requires authId in flows
    ensures r.Some? ==> r.value in flows[authId].apps && r.value.appId == appId
    ensures r.Some? ==> exists i :: (0 <= i < |flows[authId].apps| && flows[authId].apps[i] == r.value
      && forall j :: 0 <= j < i ==> flows[authId].apps[j].appId != appId)
    ensures r.None? <==> forall a :: a in flows[authId].apps ==> a.appId != appId
  {
    FindApp(GetAuthUser(flows, authId).apps, appId)
  }
}
