// The project routes of src/app/api/projects/route.js: POST creates a project
// for the signed-in user, GET lists the user's projects newest first. Both
// start with the same ladder: session cookie (401), credential verification
// and store access (a thrown error is a 500), application user (404).
module ProjectsApi {
  import opened Wrappers
  import opened Store
  import opened Cookies

  const Unauthorized := "Unauthorized"
  const UserMissing := "User not found"
  const NameRequired := "Project name is required"
  const CreateFailed := "Failed to create project"
  const FetchFailed := "Failed to fetch projects"

  /**
   * The fields of the POST body that are stored; None is a body that is not JSON or is
   * `null`, whose destructuring throws. Any other value reads its missing fields as absent.
   */
  datatype ProjectInput = ProjectInput(name: Option<string>, description: Option<string>, systemPrompt: Option<string>)

  datatype Body = Failed(error: string) | Created(project: Project) | Listed(projects: seq<Project>)

  /** The JSON response: HTTP status, the `ok` flag, and the rest of the body. */
  datatype Response = Response(status: nat, ok: bool, body: Body)

  /** The store call that throws, if the handler reaches it. */
  datatype RouteFault = ConnectFails | UserLookupFails | ProjectQueryFails

  function Fail(status: nat, error: string): Response
  {
    Response(status, false, Failed(error))
  }

  /**
   * The checks both handlers share, given the request's cookies: a missing or empty
   * `session` cookie is a 401 (the only 401) and nothing is called; a rejected
   * credential or a failing store is the handler's 500 (`failure` is its message),
   * not a 401; an unknown user is a 404.
   */
  function Authenticate(users: seq<User>, cookies: map<string, string>, verify: string -> Option<string>,
                        fault: Option<RouteFault>, failure: string): (r: Result<UserId, Response>)
    ensures !Present(SessionOf(cookies)) ==> r == Failure(Fail(401, Unauthorized))
    ensures Present(SessionOf(cookies)) && verify(SessionOf(cookies).value).None? ==> r == Failure(Fail(500, failure))
    ensures r.Failure? && r.error.status == 401 <==> !(SessionCookieName in cookies && cookies[SessionCookieName] != "")
    ensures r.Failure? ==> !r.error.ok && r.error.status in {401, 404, 500}
    ensures r.Success? ==>
      && Present(SessionOf(cookies)) && verify(SessionOf(cookies).value).Some?
      && r.value < |users| && users[r.value].firebaseUid == verify(SessionOf(cookies).value)
    ensures r.Failure? && r.error.status == 404 <==>
      && Present(SessionOf(cookies)) && verify(SessionOf(cookies).value).Some?
      && fault != Some(ConnectFails) && fault != Some(UserLookupFails)
      && FindUserByUid(users, verify(SessionOf(cookies).value).value).None?
    ensures r.Failure? && r.error.status == 404 ==> r.error == Fail(404, UserMissing)
    ensures Present(SessionOf(cookies)) && verify(SessionOf(cookies).value).Some? && fault in {Some(ConnectFails), Some(UserLookupFails)} ==>
      r == Failure(Fail(500, failure))
    ensures Present(SessionOf(cookies)) && verify(SessionOf(cookies).value).Some? ==>
      var user := FindUserByUid(users, verify(SessionOf(cookies).value).value);
      fault !in {Some(ConnectFails), Some(UserLookupFails)} && user.Some? ==> r == Success(user.value)
  {
    var session := SessionOf(cookies);
    if !Present(session) then Failure(Fail(401, Unauthorized))
    else match verify(session.value)
      case None => Failure(Fail(500, failure))
      case Some(uid) =>
        if fault == Some(ConnectFails) || fault == Some(UserLookupFails) then Failure(Fail(500, failure))
        else match FindUserByUid(users, uid)
          case None => Failure(Fail(404, UserMissing))
          case Some(u) => Success(u)
  }

  /** `Project.find({ userId: owner }).sort({ createdAt: -1 })`. */
  function OwnedNewestFirst(projects: seq<Project>, owner: UserId): (r: seq<Project>)
    ensures |r| <= |projects|
    ensures forall k :: 0 <= k < |r| ==> r[k].owner == owner
  {
    if |projects| == 0 then []
    else
      var last := projects[|projects| - 1];
      (if last.owner == owner then [last] else []) + OwnedNewestFirst(projects[..|projects| - 1], owner)
  }

  /** The listing holds exactly the owner's projects. */
  lemma {:induction false} OwnedNewestFirstMembers(projects: seq<Project>, owner: UserId, p: Project)
    ensures p in OwnedNewestFirst(projects, owner) <==> p in projects && p.owner == owner
    decreases |projects|
  {
    if |projects| > 0 {
      var init := projects[..|projects| - 1];
      OwnedNewestFirstMembers(init, owner, p);
      assert projects == init + [projects[|projects| - 1]];
    }
  }

  /** In a chronological store the listing is strictly newest first, hence without repeats. */
  lemma {:induction false} OwnedNewestFirstSorted(projects: seq<Project>, owner: UserId)
    requires Chronological(projects)
    ensures var r := OwnedNewestFirst(projects, owner);
      forall i, j :: 0 <= i < j < |r| ==> r[i].createdAt > r[j].createdAt
    decreases |projects|
  {
    if |projects| > 0 {
      var n := |projects|;
      var init := projects[..n - 1];
      var last := projects[n - 1];
      OwnedNewestFirstSorted(init, owner);
      var rest := OwnedNewestFirst(init, owner);
      forall k | 0 <= k < |rest|
        ensures rest[k].createdAt < last.createdAt
      {
        OwnedNewestFirstMembers(init, owner, rest[k]);
        var m :| 0 <= m < |init| && init[m] == rest[k];
        assert projects[m] == init[m];
      }
    }
  }

  /** GET: the caller's projects, newest first. `ok` holds exactly for the 200. */
  function List(users: seq<User>, projects: seq<Project>, cookies: map<string, string>,
                verify: string -> Option<string>, fault: Option<RouteFault>): (r: Response)
    ensures r.ok <==> r.status == 200
    ensures r.status in {200, 401, 404, 500}
    ensures !Present(SessionOf(cookies)) ==> r == Fail(401, Unauthorized)
    ensures var auth := Authenticate(users, cookies, verify, fault, FetchFailed);
      && (auth.Failure? ==> r == auth.error)
      && (auth.Success? && fault == Some(ProjectQueryFails) ==> r == Fail(500, FetchFailed))
      && (auth.Success? && fault != Some(ProjectQueryFails) ==>
            r == Response(200, true, Listed(OwnedNewestFirst(projects, auth.value))))
  {
    match Authenticate(users, cookies, verify, fault, FetchFailed)
    case Failure(response) => response
    case Success(owner) =>
      if fault == Some(ProjectQueryFails) then Fail(500, FetchFailed)
      else Response(200, true, Listed(OwnedNewestFirst(projects, owner)))
  }

  /** The project a successful POST stores. */
  function NewProject(id: string, owner: UserId, input: ProjectInput, createdAt: nat): (p: Project)
    requires input.name.Some?
    ensures p.id == id && p.owner == owner && p.createdAt == createdAt
    ensures Some(p.name) == input.name && p.description == input.description && p.systemPrompt == input.systemPrompt
  {
    Project(id, owner, input.name.value, input.description, input.systemPrompt, createdAt)
  }

  /**
   * POST. `newId` is the fresh identifier the store gives the new document.
   * Every refusal leaves the store as it was; a success appends exactly one project,
   * owned by the authenticated user and newer than every other, and returns it with 201.
   */
  method Create(db: Database, cookies: map<string, string>, verify: string -> Option<string>,
                input: Option<ProjectInput>, newId: string, fault: Option<RouteFault>)
    returns (r: Response)
    requires db.Valid()
    requires !IdInUse(db.projects, newId)
    modifies db
    ensures db.Valid()
    ensures r.ok <==> r.status in {200, 201}
    ensures db.users == old(db.users) && db.messages == old(db.messages)
    ensures var auth := Authenticate(old(db.users), cookies, verify, fault, CreateFailed);
      && (auth.Failure? ==> r == auth.error)
      && (auth.Success? && input.None? ==> r == Fail(500, CreateFailed))
      && (auth.Success? && input.Some? && !Present(input.value.name) ==> r == Fail(400, NameRequired))
      && (auth.Success? && input.Some? && Present(input.value.name) && fault == Some(ProjectQueryFails) ==>
            r == Fail(500, CreateFailed))
      && (auth.Success? && input.Some? && Present(input.value.name) && fault != Some(ProjectQueryFails) ==>
            var p := NewProject(newId, auth.value, input.value, old(db.clock));
            && r == Response(201, true, Created(p))
            && db.projects == old(db.projects) + [p] && db.clock == old(db.clock) + 1)
    ensures r.status != 201 ==> db.projects == old(db.projects) && db.clock == old(db.clock)
  {
    var auth := Authenticate(db.users, cookies, verify, fault, CreateFailed);
    if auth.Failure? {
      return auth.error;
    }
    if input.None? {
      // `await req.json()` threw on a body that is not JSON, or the body was `null`
      return Fail(500, CreateFailed);
    }
    if !Present(input.value.name) {
      return Fail(400, NameRequired);
    }
    if fault == Some(ProjectQueryFails) {
      return Fail(500, CreateFailed);
    }
    var p := NewProject(newId, auth.value, input.value, db.clock);
    db.projects := db.projects + [p];
    db.clock := db.clock + 1;
    r := Response(201, true, Created(p));
  }
}
