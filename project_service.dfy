/**
 * The project membership service: creating a project, listing a user's
 * projects, and adding collaborators to a project. The document store is a
 * map from project id to project; the store's id check
 * (`ObjectId.isValid`) is a predicate the store is given.
 */
module ProjectService {

  import opened Wrappers
  import opened UniqueSeq
  import opened JsonValue

  type Id = string

  /** A stored project document: its id, name, ordered member list and file tree. */
  datatype Project = Project(id: Id, name: string, users: seq<Id>, fileTree: Json)

  datatype ServiceError =
    | NameRequired
    | UserIdRequired
    | ProjectIdRequired
    | InvalidProjectId
    | UsersRequired
    | InvalidUserIds
    | InvalidUserId
    | NoAccess

  /** The message each error is thrown with; no message is empty. */
  function ErrorMessage(e: ServiceError): (m: string)
    ensures |m| > 0
  {
    match e
    case NameRequired => "Name is required"
    case UserIdRequired => "UserId is required"
    case ProjectIdRequired => "ProjectId is required"
    case InvalidProjectId => "Invalid ProjectId"
    case UsersRequired => "Users are required"
    case InvalidUserIds => "Invalid UserIds(s) in users array"
    case InvalidUserId => "Invalid UserId"
    case NoAccess => "User does not have access to this project"
  }

  /** Different errors are thrown with different messages, so a caller can tell them apart. */
  lemma ErrorMessagesDistinct(e1: ServiceError, e2: ServiceError)
    requires e1 != e2
    ensures ErrorMessage(e1) != ErrorMessage(e2)
  {
  }

  /** `!x` for a string argument: absent, `null` and `""` are all missing. */
  predicate Missing(x: Option<string>): (b: bool)
    ensures x.None? ==> b
    ensures x.Some? ==> (b <==> !Truthy(JString(x.value)))
  {
    x.None? || x.value == ""
  }

  /** The `users` argument of a request: falsy, some other non-array value, or an array of ids. */
  datatype UsersArg = Absent | NotAnArray | ArrayOf(ids: seq<Id>)

  /** The outcome of a store operation: what it returns or throws, and the store afterwards. */
  datatype Outcome = Outcome(result: Result<Project, ServiceError>, projects: map<Id, Project>)

  /** Every stored project is filed under its own id and lists each member once. */
  ghost predicate WellFormed(projects: map<Id, Project>) {
    forall id :: id in projects ==> projects[id].id == id && NoDup(projects[id].users)
  }

  // ---------------------------------------------------------------- createProject

  /** The guards of `createProject`, in order: the name first, then the creator's id. */
  function CreateCheck(name: Option<string>, userId: Option<Id>): (r: Option<ServiceError>)
    ensures r == Some(NameRequired) <==> Missing(name)
    ensures r == Some(UserIdRequired) <==> !Missing(name) && Missing(userId)
    ensures r.None? <==> !Missing(name) && !Missing(userId)
  {
    if Missing(name) then Some(NameRequired)
    else if Missing(userId) then Some(UserIdRequired)
    else None
  }

  /**
   * `createProject`: after the guards, a new project under the id the store
   * assigns, with the given name, the creator as its only member and an
   * empty file tree.
   */
  function CreateOutcome(projects: map<Id, Project>, name: Option<string>, userId: Option<Id>, newId: Id): (o: Outcome)
    requires newId !in projects
    ensures o.result.Err? <==> CreateCheck(name, userId).Some?
    ensures o.result.Err? ==> o.result.error == CreateCheck(name, userId).value && o.projects == projects
    ensures o.result.Ok? ==>
      && o.projects.Keys == projects.Keys + {newId}
      && (forall id :: id in projects ==> o.projects[id] == projects[id])
      && o.projects[newId] == o.result.value
      && o.result.value.id == newId
      && o.result.value.name == name.value
      && o.result.value.users == [userId.value]
      && o.result.value.fileTree == EmptyObject
    ensures WellFormed(projects) ==> WellFormed(o.projects)
  {
    match CreateCheck(name, userId)
    case Some(e) => Outcome(Err(e), projects)
    case None =>
      var p := Project(newId, name.value, [userId.value], EmptyObject);
      Outcome(Ok(p), projects[newId := p])
  }

  // ---------------------------------------------------------------- getAllProjectsByUserId

  /** `getAllProjectsByUserId`: the projects whose member list holds the user (`find({ users: userId })`). */
  function ListProjects(projects: map<Id, Project>, userId: Option<Id>): (r: Result<map<Id, Project>, ServiceError>)
    ensures r.Err? <==> Missing(userId)
    ensures r.Err? ==> r.error == UserIdRequired
    ensures r.Ok? ==> forall id :: id in r.value <==> id in projects && userId.value in projects[id].users
    ensures r.Ok? ==> forall id :: id in r.value ==> r.value[id] == projects[id]
  {
    if Missing(userId) then Err(UserIdRequired)
    else Ok(map id | id in projects && userId.value in projects[id].users :: projects[id])
  }

  /** A new project is listed for its creator. */
  lemma CreatorSeesProject(projects: map<Id, Project>, name: Option<string>, userId: Option<Id>, newId: Id)
    requires newId !in projects
    requires CreateOutcome(projects, name, userId, newId).result.Ok?
    ensures ListProjects(CreateOutcome(projects, name, userId, newId).projects, userId).Ok?
    ensures newId in ListProjects(CreateOutcome(projects, name, userId, newId).projects, userId).value
  {
  }

  // ---------------------------------------------------------------- addUsersToProject

  /** Every id in the `users` array passes the id check (`users.some(id => !isValid(id))` is false). */
  predicate AllValid(isValid: Id -> bool, ids: seq<Id>): (b: bool)
    ensures b <==> forall u :: u in ids ==> isValid(u)
  {
    forall i :: 0 <= i < |ids| ==> isValid(ids[i])
  }

  /**
   * The guards of `addUsersToProject`, in order; the first that fails decides
   * the error: project id missing, project id invalid, users missing, users
   * not an array or holding an invalid id, caller id missing, caller id invalid.
   */
  function AddUsersCheck(isValid: Id -> bool, projectId: Option<Id>, users: UsersArg, userId: Option<Id>)
    : (r: Option<ServiceError>)
    ensures r == Some(ProjectIdRequired) <==> Missing(projectId)
    ensures r == Some(InvalidProjectId) <==> !Missing(projectId) && !isValid(projectId.value)
    ensures r == Some(UsersRequired) <==>
      !Missing(projectId) && isValid(projectId.value) && users.Absent?
    ensures r == Some(InvalidUserIds) <==>
      && !Missing(projectId) && isValid(projectId.value) && !users.Absent?
      && (users.NotAnArray? || !AllValid(isValid, users.ids))
    ensures r == Some(UserIdRequired) <==>
      && !Missing(projectId) && isValid(projectId.value)
      && users.ArrayOf? && AllValid(isValid, users.ids)
      && Missing(userId)
    ensures r == Some(InvalidUserId) <==>
      && !Missing(projectId) && isValid(projectId.value)
      && users.ArrayOf? && AllValid(isValid, users.ids)
      && !Missing(userId) && !isValid(userId.value)
    ensures r.None? <==>
      && !Missing(projectId) && isValid(projectId.value)
      && users.ArrayOf? && AllValid(isValid, users.ids)
      && !Missing(userId) && isValid(userId.value)
  {
    if Missing(projectId) then Some(ProjectIdRequired)
    else if !isValid(projectId.value) then Some(InvalidProjectId)
    else if users.Absent? then Some(UsersRequired)
    else if users.NotAnArray? || exists i :: 0 <= i < |users.ids| && !isValid(users.ids[i]) then Some(InvalidUserIds)
    else if Missing(userId) then Some(UserIdRequired)
    else if !isValid(userId.value) then Some(InvalidUserId)
    else None
  }

  /** The access check: the project exists and the caller is one of its members (`findOne({ _id, users: userId })`). */
  predicate HasAccess(projects: map<Id, Project>, projectId: Id, userId: Id): (b: bool)
    ensures userId != "" ==> (b <==> projectId in ListProjects(projects, Some(userId)).value)
  {
    projectId in projects && userId in projects[projectId].users
  }

  /**
   * `addUsersToProject`: the guards, then the access check, then the
   * `$addToSet` update (`AppendMissing`) of that one project's member list;
   * the project is returned as updated.
   */
  function AddUsersOutcome(
    projects: map<Id, Project>, isValid: Id -> bool,
    projectId: Option<Id>, users: UsersArg, userId: Option<Id>): (o: Outcome)
    ensures o.result.Err? ==> o.projects == projects
    ensures o.result.Err? && AddUsersCheck(isValid, projectId, users, userId).Some? ==>
      o.result.error == AddUsersCheck(isValid, projectId, users, userId).value
    ensures o.result == Err(NoAccess) <==>
      AddUsersCheck(isValid, projectId, users, userId).None?
      && !HasAccess(projects, projectId.value, userId.value)
    ensures o.result.Ok? <==>
      AddUsersCheck(isValid, projectId, users, userId).None?
      && HasAccess(projects, projectId.value, userId.value)
    ensures o.result.Ok? ==> o.projects.Keys == projects.Keys
    ensures o.result.Ok? ==>
      var pid := projectId.value;
      var old_ := projects[pid];
      var new_ := o.projects[pid];
      && (forall id :: id in projects && id != pid ==> o.projects[id] == projects[id])
      && o.result.value == new_
      && new_.id == old_.id && new_.name == old_.name && new_.fileTree == old_.fileTree
      && |old_.users| <= |new_.users| && new_.users[..|old_.users|] == old_.users
      && (forall u :: u in new_.users <==> u in old_.users || u in users.ids)
    ensures WellFormed(projects) ==> WellFormed(o.projects)
  {
    match AddUsersCheck(isValid, projectId, users, userId)
    case Some(e) => Outcome(Err(e), projects)
    case None =>
      var pid := projectId.value;
      if !HasAccess(projects, pid, userId.value) then Outcome(Err(NoAccess), projects)
      else
        var p := projects[pid].(users := AppendMissing(projects[pid].users, users.ids));
        Outcome(Ok(p), projects[pid := p])
  }

  /**
   * Repeating a successful `addUsersToProject` with the same arguments
   * succeeds again and leaves the store as the first call left it.
   */
  lemma AddUsersIdempotent(
    projects: map<Id, Project>, isValid: Id -> bool,
    projectId: Option<Id>, users: UsersArg, userId: Option<Id>)
    requires AddUsersOutcome(projects, isValid, projectId, users, userId).result.Ok?
    ensures var once := AddUsersOutcome(projects, isValid, projectId, users, userId);
      var twice := AddUsersOutcome(once.projects, isValid, projectId, users, userId);
      twice.result == once.result && twice.projects == once.projects
  {
    var pid := projectId.value;
    var once := AddUsersOutcome(projects, isValid, projectId, users, userId);
    assert HasAccess(once.projects, pid, userId.value);
    AppendMissingIdempotent(projects[pid].users, users.ids);
  }

  /** After a successful call, each added user, and the caller, find the project among their projects. */
  lemma AddedUsersSeeProject(
    projects: map<Id, Project>, isValid: Id -> bool,
    projectId: Option<Id>, users: UsersArg, userId: Option<Id>, u: Id)
    requires AddUsersOutcome(projects, isValid, projectId, users, userId).result.Ok?
    requires u in users.ids || u == userId.value
    ensures ListProjects(AddUsersOutcome(projects, isValid, projectId, users, userId).projects, Some(u)).Ok?
      ==> projectId.value in ListProjects(AddUsersOutcome(projects, isValid, projectId, users, userId).projects, Some(u)).value
  {
  }

  /**
   * What the id guards are for: a successful call adds only members whose id
   * passes the id check, and the caller's id passes it too.
   */
  lemma AddedUsersPassIdCheck(
    projects: map<Id, Project>, isValid: Id -> bool,
    projectId: Option<Id>, users: UsersArg, userId: Option<Id>)
    requires AddUsersOutcome(projects, isValid, projectId, users, userId).result.Ok?
    ensures isValid(projectId.value) && isValid(userId.value)
    ensures var o := AddUsersOutcome(projects, isValid, projectId, users, userId);
      forall u :: u in o.projects[projectId.value].users && u !in projects[projectId.value].users ==> isValid(u)
  {
  }

  /**
   * The store of project documents. Its methods are the service's
   * operations; each leaves the store as the matching outcome function says.
   */
  class ProjectStore {
    var projects: map<Id, Project>
    /** `mongoose.Types.ObjectId.isValid`. */
    const isValid: Id -> bool

    ghost predicate Valid()
      reads this
    {
      WellFormed(projects)
    }

    constructor (isValid: Id -> bool)
      ensures Valid() && projects == map[] && this.isValid == isValid
    {
      projects := map[];
      this.isValid := isValid;
    }

    /** `createProject`; `newId` is the unused id the store assigns to the new document. */
    method CreateProject(name: Option<string>, userId: Option<Id>, newId: Id) returns (r: Result<Project, ServiceError>)
      requires Valid() && newId !in projects
      modifies this
      ensures Valid()
      ensures r == CreateOutcome(old(projects), name, userId, newId).result
      ensures projects == CreateOutcome(old(projects), name, userId, newId).projects
    {
      var err := CreateCheck(name, userId);
      if err.Some? {
        return Err(err.value);
      }
      var p := Project(newId, name.value, [userId.value], EmptyObject);
      projects := projects[newId := p];
      r := Ok(p);
    }

    /** `getAllProjectsByUserId`. */
    method GetAllProjectsByUserId(userId: Option<Id>) returns (r: Result<map<Id, Project>, ServiceError>)
      ensures r == ListProjects(projects, userId)
    {
      r := ListProjects(projects, userId);
    }

    /** `addUsersToProject`. */
    method AddUsersToProject(projectId: Option<Id>, users: UsersArg, userId: Option<Id>)
      returns (r: Result<Project, ServiceError>)
      requires Valid()
      modifies this
      ensures Valid()
      ensures r == AddUsersOutcome(old(projects), isValid, projectId, users, userId).result
      ensures projects == AddUsersOutcome(old(projects), isValid, projectId, users, userId).projects
    {
      var err := AddUsersCheck(isValid, projectId, users, userId);
      if err.Some? {
        return Err(err.value);
      }
      if !HasAccess(projects, projectId.value, userId.value) {
        return Err(NoAccess);
      }
      var pid := projectId.value;
      var p := projects[pid].(users := AppendMissing(projects[pid].users, users.ids));
      projects := projects[pid := p];
      r := Ok(p);
    }
  }
}
