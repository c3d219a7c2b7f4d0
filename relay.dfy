// The real-time relay of server.mjs: the connection gate that admits a socket
// only with a verified session cookie and puts it in its user's room, and the
// `message` handler that runs one chat turn against the store and the model.
// Each inbound event runs to completion before the next one (no interleaving
// at `await` points). The identity provider and the model are oracles given as
// parameters; `fault` names the store call that throws, if the handler reaches it.
module Relay {
  import opened Wrappers
  import opened Text
  import opened Cookies
  import opened Gemini
  import opened Store

  type SocketId = nat

  const RoomPrefix := "user_"

  const NoAuthCookie := "No auth cookie"
  const InvalidSession := "Invalid or expired session"
  const MissingFields := "Missing projectId or content"
  const UserNotFound := "User record not found"
  const ProjectNotFound := "Project not found"
  const NotAuthorized := "Not authorized for this project"
  const LlmFailed := "LLM call failed"
  const InternalError := "Internal server error"

  const LlmErrorStatus := "llm_error"
  const DefaultLlmError := "LLM error"
  const DefaultSystemPrompt := ""

  /** The room that addresses every connection of one identity: `user_<uid>`. */
  function RoomOf(uid: string): (room: string)
    ensures StartsWith(room, RoomPrefix) && room[|RoomPrefix|..] == uid
  {
    RoomPrefix + uid
  }

  /** Distinct identities never share a room. */
  lemma RoomOfInjective(a: string, b: string)
    requires RoomOf(a) == RoomOf(b)
    ensures a == b
  {
    assert a == RoomOf(a)[|RoomPrefix|..];
  }

  /** The `message` event's payload; `data || {}` turns a null payload into two missing fields. */
  datatype Payload = Payload(projectId: Option<string>, content: Option<string>)

  datatype ServerEvent =
    | Reply(id: MessageId, text: string, role: string)   // event `message`
    | Error(error: string)                               // event `message:error`

  /** One `emit`, with the sockets it reaches. */
  datatype Emission = Emission(recipients: set<SocketId>, event: ServerEvent)

  /** The store call that throws, in the order the handler makes them. */
  datatype StoreFault =
    | ConnectFails | UserLookupFails | ProjectLookupFails | UserTurnWriteFails
    | HistoryReadFails | AnnotationFails | AssistantTurnWriteFails

  /** What the checks before the first write establish. */
  datatype Admission = Admission(user: UserId, project: Project, content: string)

  /**
   * The checks before the first write of a chat turn, in the handler's order: validate
   * the payload, resolve the application user of the socket's identity, load the
   * project and check that the user owns it. A store call that throws on the way is
   * "Internal server error"; an event that passes every check is admitted.
   */
  function Admit(users: seq<User>, projects: seq<Project>, uid: string, payload: Payload, fault: Option<StoreFault>)
    : (r: Result<Admission, string>)
    ensures r.Failure? ==> r.error in {MissingFields, UserNotFound, ProjectNotFound, NotAuthorized, InternalError}
    ensures r.Failure? && r.error == MissingFields <==> !Present(payload.projectId) || !Present(payload.content)
    ensures r.Success? ==>
      && r.value.user < |users| && users[r.value.user].firebaseUid == Some(uid)
      && payload.projectId.Some? && FindProject(projects, payload.projectId.value).Some?
      && r.value.project == projects[FindProject(projects, payload.projectId.value).value]
      && r.value.project.id == payload.projectId.value
      && r.value.project.owner == r.value.user
      && payload.content == Some(r.value.content) && r.value.content != ""
    ensures Present(payload.projectId) && Present(payload.content) ==>
      var user := FindUserByUid(users, uid);
      var found := FindProject(projects, payload.projectId.value);
      && (fault in {Some(ConnectFails), Some(UserLookupFails)} ==> r == Failure(InternalError))
      && (fault !in {Some(ConnectFails), Some(UserLookupFails)} && user.None? ==> r == Failure(UserNotFound))
      && (fault == Some(ProjectLookupFails) && user.Some? ==> r == Failure(InternalError))
      && (fault !in {Some(ConnectFails), Some(UserLookupFails), Some(ProjectLookupFails)} && user.Some? ==>
            && (found.None? ==> r == Failure(ProjectNotFound))
            && (found.Some? && projects[found.value].owner == user.value ==>
                  r == Success(Admission(user.value, projects[found.value], payload.content.value))))
  {
    if !Present(payload.projectId) || !Present(payload.content) then Failure(MissingFields)
    else if fault == Some(ConnectFails) || fault == Some(UserLookupFails) then Failure(InternalError)
    else match FindUserByUid(users, uid)
      case None => Failure(UserNotFound)
      case Some(u) =>
        if fault == Some(ProjectLookupFails) then Failure(InternalError)
        else match FindProject(projects, payload.projectId.value)
          case None => Failure(ProjectNotFound)
          case Some(i) =>
            if projects[i].owner != u then Failure(NotAuthorized)
            else Success(Admission(u, projects[i], payload.content.value))
  }

  /** The project check is an owner check: a known user who does not own the project is refused. */
  lemma AdmitRefusesNonOwner(users: seq<User>, projects: seq<Project>, uid: string, payload: Payload, fault: Option<StoreFault>)
    requires Present(payload.projectId) && Present(payload.content)
    requires fault !in {Some(ConnectFails), Some(UserLookupFails), Some(ProjectLookupFails)}
    requires FindUserByUid(users, uid).Some? && FindProject(projects, payload.projectId.value).Some?
    requires projects[FindProject(projects, payload.projectId.value).value].owner != FindUserByUid(users, uid).value
    ensures Admit(users, projects, uid, payload, fault) == Failure(NotAuthorized)
  {
  }

  /** The user turn persisted for an admitted event: the caller's content, in the project's conversation. */
  function UserTurn(a: Admission): (t: Turn)
    ensures t.project == a.project.id && t.author == a.user
    ensures t.role == "user" && t.content == a.content && t.annotation.None?
  {
    Turn(a.project.id, a.user, "user", a.content, None)
  }

  /** The assistant turn persisted for a successful reply, in the same conversation as the user turn. */
  function AssistantTurn(a: Admission, text: string): (t: Turn)
    ensures t.project == UserTurn(a).project && t.author == UserTurn(a).author
    ensures t.role == "assistant" && t.content == text && t.annotation.None?
  {
    Turn(a.project.id, a.user, "assistant", text, None)
  }

  /**
   * A project's conversation as role and content pairs, oldest first: the project's
   * stored turns in creation order.
   */
  function History(messages: seq<Turn>, project: string): (h: seq<ChatMessage>)
    ensures |h| <= |messages|
  {
    if |messages| == 0 then []
    else
      var last := messages[|messages| - 1];
      History(messages[..|messages| - 1], project)
        + (if last.project == project then [ChatMessage(last.role, last.content)] else [])
  }

  /**
   * Annotating a stored turn leaves every conversation unchanged: the context
   * sent to the model depends only on roles and contents.
   */
  lemma {:induction false} HistoryIgnoresAnnotation(messages: seq<Turn>, i: nat, note: Option<Annotation>, project: string)
    requires i < |messages|
    ensures History(messages[i := messages[i].(annotation := note)], project) == History(messages, project)
    decreases |messages|
  {
    var updated := messages[i := messages[i].(annotation := note)];
    var n := |messages|;
    if i < n - 1 {
      assert updated[..n - 1] == messages[..n - 1][i := messages[i].(annotation := note)];
      HistoryIgnoresAnnotation(messages[..n - 1], i, note, project);
    } else {
      assert updated[..n - 1] == messages[..n - 1];
    }
  }

  /** Every message of the history comes from a stored turn of that project. */
  lemma {:induction false} HistoryFromProject(messages: seq<Turn>, project: string, k: nat)
    requires k < |History(messages, project)|
    ensures exists i :: (0 <= i < |messages| && messages[i].project == project
                          && History(messages, project)[k] == ChatMessage(messages[i].role, messages[i].content))
    decreases |messages|
  {
    var n := |messages|;
    var init := messages[..n - 1];
    if k < |History(init, project)| {
      HistoryFromProject(init, project, k);
      var i :| 0 <= i < |init| && init[i].project == project
        && History(init, project)[k] == ChatMessage(init[i].role, init[i].content);
      assert messages[i] == init[i];
    } else {
      assert messages[n - 1].project == project;
    }
  }

  /** The number of stored turns that belong to `project`. */
  function ProjectCount(messages: seq<Turn>, project: string): (n: nat)
    ensures n <= |messages|
  {
    if |messages| == 0 then 0
    else ProjectCount(messages[..|messages| - 1], project) + (if messages[|messages| - 1].project == project then 1 else 0)
  }

  /** The history holds one message per turn of the project: none is dropped. */
  lemma {:induction false} HistoryLength(messages: seq<Turn>, project: string)
    ensures |History(messages, project)| == ProjectCount(messages, project)
    decreases |messages|
  {
    if |messages| > 0 {
      HistoryLength(messages[..|messages| - 1], project);
    }
  }

  /** The history of an earlier state of the store is a prefix of the history of a later one. */
  lemma {:induction false} HistoryPrefix(messages: seq<Turn>, j: nat, project: string)
    requires j <= |messages|
    ensures History(messages[..j], project) <= History(messages, project)
    decreases |messages|
  {
    if j < |messages| {
      var init := messages[..|messages| - 1];
      assert init[..j] == messages[..j];
      HistoryPrefix(init, j, project);
    } else {
      assert messages[..j] == messages;
    }
  }

  /**
   * The turn at store position `i` of the project is the history's message number
   * `ProjectCount(messages[..i], project)`: the project's turns that precede it.
   */
  lemma HistoryInOrder(messages: seq<Turn>, project: string, i: nat)
    requires i < |messages| && messages[i].project == project
    ensures ProjectCount(messages[..i], project) < |History(messages, project)|
    ensures History(messages, project)[ProjectCount(messages[..i], project)] == ChatMessage(messages[i].role, messages[i].content)
  {
    var upTo := messages[..i + 1];
    assert upTo[..i] == messages[..i];
    HistoryPrefix(messages, i + 1, project);
    HistoryLength(messages[..i], project);
  }

  /** A turn stored earlier than another of the same project comes earlier in the history. */
  lemma ProjectCountGrows(messages: seq<Turn>, project: string, i: nat, j: nat)
    requires i < j <= |messages| && messages[i].project == project
    ensures ProjectCount(messages[..i], project) < ProjectCount(messages[..j], project)
  {
    var upTo := messages[..j];
    assert upTo[..i] == messages[..i] && upTo[i] == messages[i];
    HistoryInOrder(upTo, project, i);
    HistoryLength(upTo, project);
  }

  /** Reading the context: the last (at most 10) turns of the project, oldest first, as `{ role, content }`. */
  function Context(messages: seq<Turn>, project: string): (ctx: seq<ChatMessage>)
    ensures |ctx| <= WindowSize
  {
    Window(History(messages, project))
  }

  /**
   * Once the user turn is appended, the context is the last min(10, n) turns of its
   * project and ends with that turn.
   */
  lemma {:induction false} ContextEndsWithUserTurn(messages: seq<Turn>, turn: Turn)
    ensures var ctx := Context(messages + [turn], turn.project);
      && |ctx| == (if |History(messages, turn.project)| + 1 <= WindowSize then |History(messages, turn.project)| + 1 else WindowSize)
      && ctx[|ctx| - 1] == ChatMessage(turn.role, turn.content)
  {
    var ms := messages + [turn];
    assert ms[..|ms| - 1] == messages;
    var h := History(ms, turn.project);
    assert h == History(messages, turn.project) + [ChatMessage(turn.role, turn.content)];
    WindowKeepsLast(h);
  }

  /**
   * Every one of the project's last (at most 10) turns is in the context, at its place
   * in creation order: the context is exactly those turns, oldest first.
   */
  lemma ContextHoldsRecentTurns(messages: seq<Turn>, project: string, i: nat)
    requires i < |messages| && messages[i].project == project
    requires ProjectCount(messages[..i], project) + WindowSize >= ProjectCount(messages, project)
    ensures var ctx := Context(messages, project);
      var k := ProjectCount(messages[..i], project) + |ctx| - ProjectCount(messages, project);
      0 <= k < |ctx| && ctx[k] == ChatMessage(messages[i].role, messages[i].content)
  {
    HistoryInOrder(messages, project, i);
    HistoryLength(messages, project);
  }

  /**
   * The arguments the relay hands to the model client: the context as the messages, and
   * the project's prompt, or the empty prompt when the project has none or an empty one.
   */
  function AgentArgsFor(project: Project, context: seq<ChatMessage>): (args: AgentArgs)
    ensures args.messages == Some(context) && args.systemPrompt.Some?
    ensures Present(project.systemPrompt) ==> args.systemPrompt == project.systemPrompt
    ensures !Present(project.systemPrompt) ==> args.systemPrompt == Some(DefaultSystemPrompt)
  {
    AgentArgs(Some(if Present(project.systemPrompt) then project.systemPrompt.value else DefaultSystemPrompt), Some(context))
  }

  /**
   * The client's own trim does not shorten the relay's context: the model receives
   * every context message, in order, and the project's prompt iff it is non-empty.
   */
  lemma ModelSeesWholeContext(project: Project, context: seq<ChatMessage>)
    requires |context| <= WindowSize
    ensures var r := BuildRequest(AgentArgsFor(project, context));
      && r.contents == ToContents(context)
      && (r.systemInstruction.Some? <==> Present(project.systemPrompt))
  {
    WindowIdempotent(context);
    var args := AgentArgsFor(project, context);
    assert args.messages.GetOr([]) == context;
    var prompt := args.systemPrompt.GetOr("");
    assert prompt != "" <==> Present(project.systemPrompt);
    assert BuildRequest(args) == Request(ModelName, SystemInstruction(prompt), ToContents(context));
  }

  /** The note set on the user turn when the model call throws (`err.message || "LLM error"`). */
  function ErrorNote(message: string): (note: Annotation)
    ensures note.status == LlmErrorStatus
    ensures note.error != ""
    ensures message != "" ==> note.error == message
    ensures message == "" ==> note.error == DefaultLlmError
  {
    Annotation(LlmErrorStatus, if message != "" then message else DefaultLlmError)
  }

  /** Each admitted socket is in exactly its own identity's room, and rooms hold only admitted sockets. */
  ghost predicate RoutingConsistent(sockets: map<SocketId, string>, rooms: map<string, set<SocketId>>)
  {
    && (forall s :: s in sockets ==> RoomOf(sockets[s]) in rooms && s in rooms[RoomOf(sockets[s])])
    && (forall r, s :: r in rooms && s in rooms[r] ==> s in sockets && r == RoomOf(sockets[s]))
  }

  class Server {
    const db: Database
    /** `socket.user.uid` of every admitted socket. */
    var sockets: map<SocketId, string>
    /** The room table: room name to the sockets that joined it. */
    var rooms: map<string, set<SocketId>>
    /** Every event emitted so far, in order. */
    var outbox: seq<Emission>
    /** Every credential handed to the identity provider, in order. */
    var verifierCalls: seq<string>
    /** Every request handed to the model, in order. */
    var modelRequests: seq<Request>

    ghost predicate Valid()
      reads this
    {
      RoutingConsistent(sockets, rooms)
    }

    /** The sockets an emission to identity `uid`'s room reaches. */
    function Room(uid: string): (r: set<SocketId>)
      reads this
      ensures Valid() ==> forall s :: s in r ==> s in sockets && sockets[s] == uid
    {
      var r := if RoomOf(uid) in rooms then rooms[RoomOf(uid)] else {};
      assert Valid() ==> forall s :: s in r ==> s in sockets && sockets[s] == uid by {
        if Valid() {
          forall s | s in r
            ensures s in sockets && sockets[s] == uid
          {
            RoomOfInjective(sockets[s], uid);
          }
        }
      }
      r
    }

    /** Fan-out reaches every socket bound to the identity and no other. */
    lemma RoomIsBoundSockets(uid: string)
      requires Valid()
      ensures Room(uid) == set s | s in sockets && sockets[s] == uid
    {
      forall s | s in Room(uid)
        ensures s in sockets && sockets[s] == uid
      {
        RoomOfInjective(sockets[s], uid);
      }
    }

    constructor (store: Database)
      ensures Valid()
      ensures db == store
      ensures sockets == map[] && rooms == map[] && outbox == []
      ensures verifierCalls == [] && modelRequests == []
    {
      db := store;
      sockets, rooms, outbox := map[], map[], [];
      verifierCalls, modelRequests := [], [];
    }

    /**
     * The `io.use` gate followed by the `connection` handler's `join`. `verify` is the
     * identity provider's `verifySessionCookie`, with a thrown error read as None.
     * Returns the handshake error, or None when the socket is admitted.
     */
    method Connect(sid: SocketId, cookieHeader: Option<string>, decode: string -> string, verify: string -> Option<string>)
      returns (err: Option<string>)
      requires Valid()
      requires sid !in sockets
      modifies this
      ensures Valid()
      ensures outbox == old(outbox) && modelRequests == old(modelRequests)
      ensures var session := SessionCookie(cookieHeader, decode);
        && (!Present(session) ==>
              err == Some(NoAuthCookie) && verifierCalls == old(verifierCalls)
              && sockets == old(sockets) && rooms == old(rooms))
        && (Present(session) ==> verifierCalls == old(verifierCalls) + [session.value])
        && (Present(session) && verify(session.value).None? ==>
              err == Some(InvalidSession) && sockets == old(sockets) && rooms == old(rooms))
        && (Present(session) && verify(session.value).Some? ==>
              var uid := verify(session.value).value;
              && err == None
              && sockets == old(sockets)[sid := uid]
              && rooms == old(rooms)[RoomOf(uid) := old(Room(uid)) + {sid}])
    {
      var session := SessionCookie(cookieHeader, decode);
      if !Present(session) {
        return Some(NoAuthCookie);
      }
      verifierCalls := verifierCalls + [session.value];
      var decoded := verify(session.value);
      if decoded.None? {
        return Some(InvalidSession);
      }
      Bind(sid, decoded.value);
      err := None;
    }

    /** The `connection` handler's `join`: the admitted socket enters its identity's room. */
    method Bind(sid: SocketId, uid: string)
      requires Valid()
      requires sid !in sockets
      modifies this
      ensures Valid()
      ensures outbox == old(outbox) && verifierCalls == old(verifierCalls) && modelRequests == old(modelRequests)
      ensures sockets == old(sockets)[sid := uid]
      ensures rooms == old(rooms)[RoomOf(uid) := old(Room(uid)) + {sid}]
    {
      var room := RoomOf(uid);
      rooms := rooms[room := Room(uid) + {sid}];
      sockets := sockets[sid := uid];
      forall r, s | r in rooms && s in rooms[r]
        ensures s in sockets && r == RoomOf(sockets[s])
      {
        if s != sid && r == room {
          assert s in old(Room(uid));
        }
      }
    }

    /** A socket that disconnects leaves its room (done by Socket.IO itself). */
    method Disconnect(sid: SocketId)
      requires Valid()
      modifies this
      ensures Valid()
      ensures outbox == old(outbox) && verifierCalls == old(verifierCalls) && modelRequests == old(modelRequests)
      ensures sid !in old(sockets) ==> sockets == old(sockets) && rooms == old(rooms)
      ensures sid in old(sockets) ==>
        var uid := old(sockets)[sid];
        sockets == old(sockets) - {sid} && rooms == old(rooms)[RoomOf(uid) := old(Room(uid)) - {sid}]
    {
      if sid in sockets {
        var uid := sockets[sid];
        rooms := rooms[RoomOf(uid) := Room(uid) - {sid}];
        sockets := sockets - {sid};
        forall s | s in sockets
          ensures RoomOf(sockets[s]) in rooms && s in rooms[RoomOf(sockets[s])]
        {
          assert s in old(sockets) && s != sid;
        }
      }
    }

    /** `socket.emit("message:error", { error })`: to the originating socket only. */
    method EmitError(sid: SocketId, error: string)
      modifies this
      ensures outbox == old(outbox) + [Emission({sid}, Error(error))]
      ensures sockets == old(sockets) && rooms == old(rooms)
      ensures verifierCalls == old(verifierCalls) && modelRequests == old(modelRequests)
    {
      outbox := outbox + [Emission({sid}, Error(error))];
    }

    /**
     * Handling the reply once the model has answered `reply`, from the store `withUser`
     * (whose last turn is the user turn) to `after`, with `emitted` the one event
     * sent: on failure the user turn is annotated and the caller told; on success an
     * assistant turn is written and delivered to `room`.
     */
    ghost predicate ReplyHandled(
      a: Admission, sid: SocketId, room: set<SocketId>, reply: Result<string, string>, fault: Option<StoreFault>,
      withUser: seq<Turn>, after: seq<Turn>, emitted: Emission)
      requires |withUser| > 0
    {
      if reply.Failure? then
        if fault == Some(AnnotationFails) then
          after == withUser && emitted == Emission({sid}, Error(InternalError))
        else
          && after == withUser[|withUser| - 1 := withUser[|withUser| - 1].(annotation := Some(ErrorNote(reply.error)))]
          && emitted == Emission({sid}, Error(LlmFailed))
      else if fault == Some(AssistantTurnWriteFails) then
        after == withUser && emitted == Emission({sid}, Error(InternalError))
      else
        && after == withUser + [AssistantTurn(a, reply.value)]
        && emitted == Emission(room, Reply(|withUser|, reply.value, "assistant"))
    }

    /**
     * An admitted chat turn after the checks, from the state `before`/`requestsBefore`
     * to `after`/`requestsAfter`, with `emitted` the one event sent: the user turn is
     * written, the context read, the model called with it, and the reply handled.
     */
    ghost predicate TurnCompleted(
      a: Admission, sid: SocketId, room: set<SocketId>,
      generate: Request -> Result<Option<Response>, string>, fault: Option<StoreFault>,
      before: seq<Turn>, after: seq<Turn>, requestsBefore: seq<Request>, requestsAfter: seq<Request>,
      emitted: Emission)
    {
      var withUser := before + [UserTurn(a)];
      var args := AgentArgsFor(a.project, Context(withUser, a.project.id));
      if fault == Some(UserTurnWriteFails) then
        after == before && requestsAfter == requestsBefore && emitted == Emission({sid}, Error(InternalError))
      else if fault == Some(HistoryReadFails) then
        after == withUser && requestsAfter == requestsBefore && emitted == Emission({sid}, Error(InternalError))
      else
        && requestsAfter == requestsBefore + [BuildRequest(args)]
        && ReplyHandled(a, sid, room, CallAgent(args, generate), fault, withUser, after, emitted)
    }

    /** The `message` handler after the model call: annotate and report a failure, or store and deliver the reply. */
    method HandleReply(sid: SocketId, a: Admission, reply: Result<string, string>, fault: Option<StoreFault>)
      requires sid in sockets
      requires |db.messages| > 0
      modifies this, db
      ensures sockets == old(sockets) && rooms == old(rooms) && verifierCalls == old(verifierCalls)
      ensures modelRequests == old(modelRequests)
      ensures db.users == old(db.users) && db.projects == old(db.projects) && db.clock == old(db.clock)
      ensures |outbox| == |old(outbox)| + 1 && outbox[..|old(outbox)|] == old(outbox)
      ensures ReplyHandled(a, sid, Room(sockets[sid]), reply, fault, old(db.messages), db.messages, outbox[|old(outbox)|])
    {
      if reply.Failure? {
        if fault == Some(AnnotationFails) {
          EmitError(sid, InternalError);
          return;
        }
        var userMsg: MessageId := |db.messages| - 1;
        db.messages := db.messages[userMsg := db.messages[userMsg].(annotation := Some(ErrorNote(reply.error)))];
        EmitError(sid, LlmFailed);
        return;
      }
      if fault == Some(AssistantTurnWriteFails) {
        EmitError(sid, InternalError);
        return;
      }
      var assistantMsg: MessageId := |db.messages|;
      db.messages := db.messages + [AssistantTurn(a, reply.value)];
      outbox := outbox + [Emission(Room(sockets[sid]), Reply(assistantMsg, reply.value, "assistant"))];
    }

    /** The `message` handler after the ownership check: store the user turn, read the context, call the model, handle the reply. */
    method CompleteTurn(
      sid: SocketId, a: Admission,
      generate: Request -> Result<Option<Response>, string>,
      fault: Option<StoreFault>)
      requires sid in sockets
      modifies this, db
      ensures sockets == old(sockets) && rooms == old(rooms) && verifierCalls == old(verifierCalls)
      ensures db.users == old(db.users) && db.projects == old(db.projects) && db.clock == old(db.clock)
      ensures |outbox| == |old(outbox)| + 1 && outbox[..|old(outbox)|] == old(outbox)
      ensures TurnCompleted(a, sid, Room(sockets[sid]), generate, fault,
                            old(db.messages), db.messages, old(modelRequests), modelRequests,
                            outbox[|old(outbox)|])
    {
      // store the user turn
      if fault == Some(UserTurnWriteFails) {
        EmitError(sid, InternalError);
        return;
      }
      db.messages := db.messages + [UserTurn(a)];

      // the last ten turns of the project, oldest first
      if fault == Some(HistoryReadFails) {
        EmitError(sid, InternalError);
        return;
      }
      var formatted := Context(db.messages, a.project.id);

      // the model call
      var args := AgentArgsFor(a.project, formatted);
      modelRequests := modelRequests + [BuildRequest(args)];
      var reply := CallAgent(args, generate);
      HandleReply(sid, a, reply, fault);
    }

    /**
     * The checks of the `message` handler that precede the first write, in the
     * handler's order, with the lookups they make.
     */
    method Authorize(uid: string, payload: Payload, fault: Option<StoreFault>) returns (r: Result<Admission, string>)
      ensures r == Admit(db.users, db.projects, uid, payload, fault)
    {
      if !Present(payload.projectId) || !Present(payload.content) {
        return Failure(MissingFields);
      }
      var projectId, content := payload.projectId.value, payload.content.value;
      if fault == Some(ConnectFails) || fault == Some(UserLookupFails) {
        return Failure(InternalError);
      }
      var user := FindUserByUid(db.users, uid);
      if user.None? {
        return Failure(UserNotFound);
      }
      if fault == Some(ProjectLookupFails) {
        return Failure(InternalError);
      }
      var found := FindProject(db.projects, projectId);
      if found.None? {
        return Failure(ProjectNotFound);
      }
      var project := db.projects[found.value];
      if project.owner != user.value {
        return Failure(NotAuthorized);
      }
      return Success(Admission(user.value, project, content));
    }

    /**
     * The `message` handler on an admitted socket. Every path emits exactly one
     * event: a refused event changes nothing else and answers the originating socket
     * only; an admitted one proceeds as `TurnCompleted` states. Every thrown store
     * error ends in "Internal server error" with the writes made before it kept.
     */
    method OnMessage(
      sid: SocketId, payload: Payload,
      generate: Request -> Result<Option<Response>, string>,
      fault: Option<StoreFault>)
      requires Valid()
      requires sid in sockets
      modifies this, db
      ensures Valid()
      ensures sockets == old(sockets) && rooms == old(rooms) && verifierCalls == old(verifierCalls)
      ensures db.users == old(db.users) && db.projects == old(db.projects) && db.clock == old(db.clock)
      ensures |outbox| == |old(outbox)| + 1 && outbox[..|old(outbox)|] == old(outbox)
      ensures match Admit(old(db.users), old(db.projects), sockets[sid], payload, fault)
        case Failure(e) =>
          && db.messages == old(db.messages) && modelRequests == old(modelRequests)
          && outbox[|old(outbox)|] == Emission({sid}, Error(e))
        case Success(a) =>
          TurnCompleted(a, sid, Room(sockets[sid]), generate, fault,
                        old(db.messages), db.messages, old(modelRequests), modelRequests,
                        outbox[|old(outbox)|])
    {
      var admission := Authorize(sockets[sid], payload, fault);
      if admission.Failure? {
        EmitError(sid, admission.error);
        return;
      }
      CompleteTurn(sid, admission.value, generate, fault);
    }
  }
}
