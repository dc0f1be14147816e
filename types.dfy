/** The record and enum types of the solver-flows application (src/lib.rs).
    Every Rust struct with a derived `PartialEq` becomes a datatype, whose
    equality in Dafny is structural over all fields, exactly as the derive is. */
module SolverFlows {

  /** Rust's `Option`, as returned by `get_app`. */
  datatype Option<T> = None | Some(value: T)

  /** The kind of a flow node (`NodeType`). */
  datatype NodeType = API | FUNCTION

  /** The output type tag of a deployed API function (`OutDataInterface`). */
  datatype OutDataInterface = StringOut | NumberOut | BooleanOut | ObjectOut

  /** The HTTP method of a deployed API request (`RequestType`). */
  datatype RequestType = GET | POST | PUT | DELETE | PATCH | StringRequest

  /** One declared input of a request (`SApiInput`). */
  datatype SApiInput = SApiInput(key: string, inputType: string)

  /** The request part of a deployed API function (`SApiRequest`). */
  datatype SApiRequest = SApiRequest(
    url: string,
    requestType: RequestType,
    inputs: seq<SApiInput>,
    imports: seq<string>)

  /** One deployed API function (`SApiDataInterface`). */
  datatype SApiDataInterface = SApiDataInterface(
    apiName: string,
    data: SApiRequest,
    inputs: seq<SApiInput>,
    outputs: OutDataInterface)

  /** The published API surface of an app (`AppDeployedApiDataType`). */
  datatype AppDeployedApiData = AppDeployedApiData(name: string, functions: seq<SApiDataInterface>)

  /** Sandbox metadata of an app (`AppSandboxDataType`). */
  datatype AppSandboxData = AppSandboxData(id: string, portUrl: string, sandboxUrl: string)

  /** What a flow node does (`Details`). */
  datatype Details = Details(nodeType: NodeType, moduleName: string, value: string)

  /** One node of a flow (`AppNodesDataType`). */
  datatype AppNodesData = AppNodesData(id: string, details: Details)

  /** One app owned by a user (`AppType`). */
  datatype App = App(
    appId: string,
    name: string,
    description: string,
    isPublic: bool,
    reactFlow: string,
    nodesData: seq<AppNodesData>,
    sandboxDetails: AppSandboxData,
    deployedApiDetails: AppDeployedApiData)

  /** A user and the ordered list of their apps (`AuthUserType`). */
  datatype AuthUser = AuthUser(authId: string, apps: seq<App>)

  /** The seven commands the contract accepts (`Operation`), in declaration order. */
  datatype Operation =
    | CreateUser(authId: string)
    | UpdateReactFlow(authId: string, appId: string, reactFlow: string)
    | CreateApp(authId: string, appId: string, name: string, description: string)
    | UpdateNodesData(authId: string, appId: string, nodesData: seq<AppNodesData>)
    | UpdateSandboxDetails(authId: string, appId: string, sandboxDetails: AppSandboxData)
    | UpdateDeployedApiDetails(authId: string, appId: string, deployedApiDetails: AppDeployedApiData)
    | UpdateIsPublic(authId: string, appId: string, isPublic: bool)

  /** Of the `flows` table (src/state.rs): every stored record carries the key it is stored under. */
  predicate KeysMatch(flows: map<string, AuthUser>)
  {
    forall id :: id in flows ==> flows[id].authId == id
  }

  /** `AuthUserType::new`: a record holding exactly the given id and apps. */
  function NewAuthUser(authId: string, apps: seq<App>): (u: AuthUser)
    ensures u.authId == authId && u.apps == apps
  {
    AuthUser(authId, apps)
  }

  /** The derived `Default` of `AuthUserType`: the `new` record of the empty id and no apps. */
  function DefaultAuthUser(): (u: AuthUser)
    ensures u == NewAuthUser("", [])
    ensures u.authId == "" && |u.apps| == 0
  {
    AuthUser("", [])
  }

  /** The app id an operation targets: every variant but `CreateUser` carries one. */
  function AppIdOf(op: Operation): (r: Option<string>)
    ensures r.None? <==> op.CreateUser?
    ensures r.Some? ==> r.value == op.appId
  {
    if op.CreateUser? then None else Some(op.appId)
  }

  /** The five operations that replace one field of every matching app. */
  predicate IsFieldUpdate(op: Operation)
  {
    op.UpdateReactFlow? || op.UpdateNodesData? || op.UpdateSandboxDetails?
    || op.UpdateDeployedApiDetails? || op.UpdateIsPublic?
  }

  /** Every operation is exactly one of: creating a user, creating an app, or a field update. */
  lemma OperationKinds(op: Operation)
    ensures op.CreateUser? || op.CreateApp? || IsFieldUpdate(op)
    ensures IsFieldUpdate(op) ==> !op.CreateUser? && !op.CreateApp?
  {
  }

  /** `NodeType` is a closed domain of two values. */
  function AllNodeTypes(): (r: seq<NodeType>)
    ensures |r| == 2
    ensures forall i, j :: 0 <= i < j < |r| ==> r[i] != r[j]
  {
    [API, FUNCTION]
  }

  /** The position of each `NodeType` value in `AllNodeTypes()`: every value is listed. */
  function NodeTypeIndex(t: NodeType): (i: nat)
    ensures i < |AllNodeTypes()| && AllNodeTypes()[i] == t
  {
    match t
    case API => 0
    case FUNCTION => 1
  }

  /** `OutDataInterface` is a closed domain of four values. */
  function AllOutDataInterfaces(): (r: seq<OutDataInterface>)
    ensures |r| == 4
    ensures forall i, j :: 0 <= i < j < |r| ==> r[i] != r[j]
  {
    [StringOut, NumberOut, BooleanOut, ObjectOut]
  }

  /** The position of each `OutDataInterface` value in `AllOutDataInterfaces()`: every value is listed. */
  function OutDataInterfaceIndex(t: OutDataInterface): (i: nat)
    ensures i < |AllOutDataInterfaces()| && AllOutDataInterfaces()[i] == t
  {
    match t
    case StringOut => 0
    case NumberOut => 1
    case BooleanOut => 2
    case ObjectOut => 3
  }

  /** `RequestType` is a closed domain of six values. */
  function AllRequestTypes(): (r: seq<RequestType>)
    ensures |r| == 6
    ensures forall i, j :: 0 <= i < j < |r| ==> r[i] != r[j]
  {
    [GET, POST, PUT, DELETE, PATCH, StringRequest]
  }

  /** The position of each `RequestType` value in `AllRequestTypes()`: every value is listed. */
  function RequestTypeIndex(t: RequestType): (i: nat)
    ensures i < |AllRequestTypes()| && AllRequestTypes()[i] == t
  {
    match t
    case GET => 0
    case POST => 1
    case PUT => 2
    case DELETE => 3
    case PATCH => 4
    case StringRequest => 5
  }

  /** The derived `PartialEq` of `AppType`: two apps are equal exactly when all eight fields are. */
  lemma AppEquality(a: App, b: App)
    ensures a == b <==>
      a.appId == b.appId && a.name == b.name && a.description == b.description
      && a.isPublic == b.isPublic && a.reactFlow == b.reactFlow && a.nodesData == b.nodesData
      && a.sandboxDetails == b.sandboxDetails && a.deployedApiDetails == b.deployedApiDetails
  {
  }

  /** The derived `PartialEq` of `AuthUserType`: equal ids and equal app lists, element by element. */
  lemma AuthUserEquality(u: AuthUser, v: AuthUser)
    ensures u == v <==>
      u.authId == v.authId && |u.apps| == |v.apps|
      && forall k :: 0 <= k < |u.apps| ==> u.apps[k] == v.apps[k]
  {
    if u.authId == v.authId && |u.apps| == |v.apps|
       && forall k :: 0 <= k < |u.apps| ==> u.apps[k] == v.apps[k]
    {
      assert u.apps == v.apps;
    }
  }
}
