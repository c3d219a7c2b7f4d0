// The document store shared by the socket relay and the HTTP routes
// (src/models/User.js, Project.js, Message.js), reduced to what the core reads
// and writes. Users and messages are identified by their position in creation
// order; projects carry the string id that clients send. Time is the store's
// logical `clock`, which advances by one per created project.
module Store {
  import opened Wrappers

  type UserId = nat
  type MessageId = nat

  datatype User = User(email: Option<string>, name: Option<string>, firebaseUid: Option<string>)

  datatype Project = Project(
    id: string,
    owner: UserId,
    name: string,
    description: Option<string>,
    systemPrompt: Option<string>,
    createdAt: nat)

  /** The status note the relay attaches to a user turn whose model call failed. */
  datatype Annotation = Annotation(status: string, error: string)

  /** One persisted chat message of a project's conversation. */
  datatype Turn = Turn(project: string, author: UserId, role: string, content: string, annotation: Option<Annotation>)

  /** `findOne(filter)`: the first record, in store order, that matches. */
  function FirstMatch<T>(s: seq<T>, matches: T -> bool): (r: Option<nat>)
    ensures r.Some? ==> r.value < |s| && matches(s[r.value])
    ensures r.Some? ==> forall j :: 0 <= j < r.value ==> !matches(s[j])
    ensures r.None? ==> forall j :: 0 <= j < |s| ==> !matches(s[j])
  {
    if |s| == 0 then None
    else if matches(s[0]) then Some(0)
    else match FirstMatch(s[1..], matches)
      case None => None
      case Some(i) => Some(i + 1)
  }

  /** Appending a record that does not match leaves every first match where it was. */
  lemma {:induction false} FirstMatchAppend<T>(s: seq<T>, x: T, matches: T -> bool)
    requires !matches(x)
    ensures FirstMatch(s + [x], matches) == FirstMatch(s, matches)
    decreases |s|
  {
    if |s| > 0 {
      assert (s + [x])[1..] == s[1..] + [x];
      FirstMatchAppend(s[1..], x, matches);
    }
  }

  /** Changing a record in a way the filter cannot see leaves every first match where it was. */
  lemma {:induction false} FirstMatchUpdate<T>(s: seq<T>, i: nat, x: T, matches: T -> bool)
    requires i < |s| && matches(x) == matches(s[i])
    ensures FirstMatch(s[i := x], matches) == FirstMatch(s, matches)
    decreases |s|
  {
    if i > 0 {
      assert s[i := x][1..] == s[1..][i - 1 := x];
      FirstMatchUpdate(s[1..], i - 1, x, matches);
    }
  }

  /** `User.findOne({ firebaseUid: uid })`. */
  function FindUserByUid(users: seq<User>, uid: string): (r: Option<UserId>)
    ensures r.Some? ==> r.value < |users| && users[r.value].firebaseUid == Some(uid)
    ensures r.Some? ==> forall j :: 0 <= j < r.value ==> users[j].firebaseUid != Some(uid)
    ensures r.None? ==> forall j :: 0 <= j < |users| ==> users[j].firebaseUid != Some(uid)
  {
    FirstMatch(users, (u: User) => u.firebaseUid == Some(uid))
  }

  /** `User.findOne({ email })`. */
  function FindUserByEmail(users: seq<User>, email: string): (r: Option<UserId>)
    ensures r.Some? ==> r.value < |users| && users[r.value].email == Some(email)
    ensures r.Some? ==> forall j :: 0 <= j < r.value ==> users[j].email != Some(email)
    ensures r.None? ==> forall j :: 0 <= j < |users| ==> users[j].email != Some(email)
  {
    FirstMatch(users, (u: User) => u.email == Some(email))
  }

  /** `Project.findById(id)`. */
  function FindProject(projects: seq<Project>, id: string): (r: Option<nat>)
    ensures r.Some? ==> r.value < |projects| && projects[r.value].id == id
    ensures r.None? <==> !IdInUse(projects, id)
  {
    FirstMatch(projects, (p: Project) => p.id == id)
  }

  predicate DistinctIds(projects: seq<Project>) {
    forall i, j :: 0 <= i < j < |projects| ==> projects[i].id != projects[j].id
  }

  /** Projects are stored in creation order, and creation times strictly increase. */
  predicate Chronological(projects: seq<Project>) {
    forall i, j :: 0 <= i < j < |projects| ==> projects[i].createdAt < projects[j].createdAt
  }

  predicate IdInUse(projects: seq<Project>, id: string) {
    exists i :: 0 <= i < |projects| && projects[i].id == id
  }

  class Database {
    var users: seq<User>
    var projects: seq<Project>
    var messages: seq<Turn>
    var clock: nat

    ghost predicate Valid()
      reads this
    {
      && Chronological(projects)
      && DistinctIds(projects)
      && (forall i :: 0 <= i < |projects| ==> projects[i].createdAt < clock)
    }

    constructor ()
      ensures Valid()
      ensures users == [] && projects == [] && messages == [] && clock == 0
    {
      users, projects, messages, clock := [], [], [], 0;
    }
  }
}
