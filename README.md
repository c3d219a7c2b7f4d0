# AgentHub relay and routes — a Dafny model

This project models the decision logic of AgentHub, a chat web application:

- the socket server (`server.mjs`): its cookie parser, the connection gate
  that admits a socket only with a verified `session` cookie and puts it in the
  room `user_<uid>`, and the `message` handler that runs one chat turn (validate,
  resolve the user, check project ownership, store the user turn, send the last
  ten turns to the model, then annotate the user turn or store and deliver the
  assistant's reply);
- the shaping of the model request and the extraction of the reply text in
  `callGeminiAgent`;
- the `/chat` route guard;
- the project routes (create and list) and the sign-in route.

The store is a `Database` object (users, projects, messages, a logical clock).
The socket server is a `Server` object with the socket-to-identity table, the
room table, the list of emitted events and the logs of calls made to the
identity provider and to the model. Handlers are methods that change these
fields. The checks and queries that only compute a value are functions, and
lemmas state their properties.

Outside services are parameters. The identity provider's calls and the model
SDK are total functions (`None` or `Failure` stands for "threw").
`decodeURIComponent` is an abstract `decode`. Each handler takes a `fault`
argument that names the store call that throws, if the handler reaches it.
Each inbound event runs to completion, as if atomic. Time is the order of
creation.

Files: `wrappers.dfy` (Option, Result, JavaScript truthiness of strings),
`text.dfy` (`startsWith`, `split`, `join`), `cookies.dfy`, `gemini.dfy`,
`middleware.dfy`, `store.dfy`, `relay.dfy`, `projects.dfy`, `login.dfy`.

## Model

| member | source | states |
|---|---|---|
| Wrappers.FirstPresent | src/app/api/login/route.js:34-35 | the first non-empty string of the two, else none, and never an empty string |
| Text.IndexOf | server.mjs:21-22 | the result is the first occurrence of the separator at or after `from`, and None exactly when there is none |
| Text.Split | server.mjs:21-22 | `split` always gives at least one piece (what the pieces are is stated by the three lemmas below) |
| Text.JoinSplit | server.mjs:22-23 | splitting on a separator and re-joining with it gives back the original text |
| Text.SplitPiecesFree | server.mjs:21-22 | no piece produced by `split` contains the separator |
| Text.SplitHead | server.mjs:22 | the first piece is the text before the first occurrence, and the other pieces are the split of the rest |
| Text.Join | server.mjs:23 | joining no parts gives "", and the joined text starts with the first part |
| Cookies.CookiePair | server.mjs:22-23 | the name is a prefix of the piece, and a piece without "=" is all name with the raw value "" |
| Cookies.CookiePairAtFirstEquals | server.mjs:22-23 | the name is the text before the first "=" and the raw value is all the text after it ("a=b=c" gives "b=c"); with no "=", the value is "" |
| Cookies.CookieNameHasNoEquals | server.mjs:22 | a cookie name never contains "=" |
| Cookies.Entries | server.mjs:21-24 | one entry per "; "-separated piece, in order: the piece's name and its percent-decoded value |
| Cookies.FromEntries | server.mjs:20 | no entries give the empty map, and the last entry's name always maps to the last entry's value |
| Cookies.FromEntriesKeys | server.mjs:20 | the parsed keys are exactly the names that occur among the entries |
| Cookies.FromEntriesLastWins | server.mjs:20 | when a name repeats, the value of its last entry wins |
| Cookies.ParseCookies | server.mjs:18-26 | an empty header gives no cookies; otherwise the name of the last "; "-separated piece maps to that piece's decoded value |
| Cookies.ParseCookiesKeys | server.mjs:18-26 | an empty header gives the empty map; otherwise the keys are the names of the "; "-separated pieces |
| Cookies.ParseCookiesLastPieceWins | server.mjs:18-26 | the last piece with a given name sets that name's value to the decoded text after its first "=" |
| Cookies.SessionOf | server.mjs:57 | the `session` credential is present exactly when the cookies have an entry named `session`, and is that entry's value |
| Cookies.SessionCookie | server.mjs:55-57 | a handshake with no cookie header, or an empty one, has no `session` credential; otherwise the credential is present exactly when the parsed header has a `session` cookie, and is its value |
| Gemini.Window | src/lib/geminiClient.js:34 | at most 10 messages are kept, and they are the final ones of the input, in order |
| Gemini.WindowIdempotent | src/lib/geminiClient.js:34 | 10 or fewer messages pass unchanged, so trimming twice is the same as trimming once |
| Gemini.WindowKeepsLast | src/lib/geminiClient.js:34 | the last input message is always the last one forwarded |
| Gemini.GeminiRole | src/lib/geminiClient.js:38 | role `assistant` becomes `model`; every other role is copied unchanged |
| Gemini.ToContents | src/lib/geminiClient.js:37-40 | one content per message, with the mapped role and a single part holding the message text verbatim |
| Gemini.SystemInstruction | src/lib/geminiClient.js:42-44 | present exactly when the prompt is non-empty, and then role `user` with that exact text |
| Gemini.BuildRequest | src/lib/geminiClient.js:26-51 | the request names the model "gemini-2.0-flash" and carries at most 10 contents |
| Gemini.BuildRequestShape | src/lib/geminiClient.js:26-51 | the request carries the model name, the windowed messages mapped one to one, and a system instruction exactly when `systemPrompt` is truthy |
| Gemini.DefaultRequest | src/lib/geminiClient.js:26-30 | omitted arguments give no contents and no system instruction |
| Gemini.JoinOutputTexts | src/lib/geminiClient.js:57 | outputs that all lack a text, or whose texts are all empty, give "" (`join` writes a missing text as "") |
| Gemini.JoinOutputTextsAppend | src/lib/geminiClient.js:57 | the joined output texts are concatenated in output order |
| Gemini.JoinOutputTextsAllPresent | src/lib/geminiClient.js:57 | when every output has a text, the result is those texts concatenated |
| Gemini.ResponseText | src/lib/geminiClient.js:54-58 | `resp.text` when it is present, even if empty; otherwise the joined `outputs` texts when `outputs` is an array; otherwise "" |
| Gemini.EmptyTextIsKept | src/lib/geminiClient.js:55 | an empty `text` is returned as "" and the outputs are not consulted |
| Gemini.CallAgent | src/lib/geminiClient.js:26-59 | fails exactly when the SDK call for the built request fails, with its error; otherwise returns the extracted text |
| Middleware.Guard | src/middleware.js:4-17 | given the request's cookies by name, the guard redirects, always to "/", exactly when the cookie named `session` is missing or empty and the path starts with "/chat" |
| Middleware.CookiePresencePasses | src/middleware.js:9-16 | any non-empty `session` cookie passes on every path; its value is never checked |
| Middleware.OnlySessionCookieMatters | src/middleware.js:8-9 | the guard reads only the cookie named `session`: adding or changing any other cookie never changes its decision |
| Middleware.OtherPathsPass | src/middleware.js:12-16 | a path outside "/chat" passes even without a cookie |
| Middleware.Route | src/middleware.js:19-21 | with the matcher, only the exact path "/chat" without a non-empty `session` cookie is redirected |
| Store.FirstMatch | server.mjs:90-92 | the index of the first record that matches the filter, and None exactly when no record matches |
| Store.FirstMatchAppend | src/app/api/login/route.js:43-46 | appending a record that does not match the filter leaves the first match where it was |
| Store.FirstMatchUpdate | src/app/api/login/route.js:48-51 | changing a record without changing whether it matches leaves the first match where it was |
| Store.FindUserByUid | server.mjs:90-92 | the first user, in store order, whose provider uid is the given one; none exactly when no user has it |
| Store.FindUserByEmail | src/app/api/login/route.js:38-40 | the first user, in store order, with the given e-mail; none exactly when no user has it |
| Store.FindProject | server.mjs:97-103 | a project with the given id, and none exactly when no stored project has that id |
| Relay.ProjectCount | server.mjs:120 | the number of stored turns of a project, at most the number of stored turns |
| Relay.UserTurn | server.mjs:112-117 | the user turn belongs to the project's conversation, is authored by the caller, has role `user`, the caller's content and no status note |
| Relay.AssistantTurn | server.mjs:154-159 | the assistant turn belongs to the same conversation and author as the user turn, has role `assistant`, the reply text and no status note |
| Relay.History | server.mjs:120-129 | a project's conversation as `{role, content}` pairs, never longer than the stored turns; with the lemmas below, it holds every turn of the project exactly once, oldest first |
| Relay.HistoryIgnoresAnnotation | server.mjs:141-146 | annotating a stored turn leaves every project's `{role, content}` history unchanged |
| Relay.HistoryFromProject | server.mjs:120-129 | every message of a project's history comes from a stored turn of that project, with the same role and content |
| Relay.HistoryLength | server.mjs:120-129 | the history has exactly one message per stored turn of the project: none is dropped |
| Relay.HistoryPrefix | server.mjs:120-129 | the history of an earlier state of the store is a prefix of the history of a later one |
| Relay.HistoryInOrder | server.mjs:120-129 | the project's turn at store position i is the history's message number "turns of the project stored before i", with its role and content |
| Relay.ProjectCountGrows | server.mjs:120-129 | a turn stored before another turn of the same project comes before it in the history, so the history is in creation order |
| Relay.RoomOf | server.mjs:74 | the room name is "user_" followed by the uid |
| Relay.RoomOfInjective | server.mjs:74 | two distinct identities never share a room |
| Relay.Admit | server.mjs:78-109 | a missing or empty `projectId` or `content` is refused with "Missing projectId or content"; a failing connection or user lookup gives "Internal server error"; an unknown user gives "User record not found"; a failing project lookup gives "Internal server error"; an unknown project gives "Project not found"; an event that passes every check is admitted with its user, project and content; an admitted event has a user with the socket's uid, an existing project with that id, and that user as the project's owner |
| Relay.AdmitRefusesNonOwner | server.mjs:104-109 | a known user who does not own an existing project is refused with "Not authorized for this project" |
| Relay.Context | server.mjs:119-129 | the context holds at most 10 turns |
| Relay.ContextEndsWithUserTurn | server.mjs:111-129 | after the user turn is appended, the context has min(10, n) turns, where n counts the new turn, and ends with that turn |
| Relay.ContextHoldsRecentTurns | server.mjs:119-129 | each of the project's last (at most 10) turns is in the context, at its place in creation order |
| Relay.AgentArgsFor | server.mjs:134-138 | the model client gets the context as its messages, and the project's prompt when it is non-empty, else the empty prompt |
| Relay.ModelSeesWholeContext | server.mjs:133-138 | the client's own 10-message trim removes nothing from the relay's context, and the project's prompt is sent exactly when it is non-empty |
| Relay.ErrorNote | server.mjs:141-146 | the annotation has status `llm_error` and the error's message, or "LLM error" exactly when the message is empty |
| Relay.Server.Room | server.mjs:163 | under the routing invariant, every socket an emission to `user_<uid>` reaches is bound to that uid |
| Relay.Server.RoomIsBoundSockets | server.mjs:163 | under the routing invariant, a room emission reaches exactly the sockets bound to that identity |
| Relay.Server.Connect | server.mjs:54-74 | with no `session` cookie or an empty one, the error is "No auth cookie" and the verifier is not called; a rejected credential gives "Invalid or expired session"; an accepted one binds the uid and joins exactly the room `user_<uid>` |
| Relay.Server.Bind | server.mjs:72-74 | the admitted socket is bound to its uid and added to exactly the room `user_<uid>`, and the routing invariant is kept |
| Relay.Server.Disconnect | server.mjs:174-178 | a disconnected socket leaves its identity's room and the routing invariant is kept |
| Relay.Server.EmitError | server.mjs:80-82 | one `message:error` event is sent to the originating socket only, and nothing else changes |
| Relay.Server.Authorize | server.mjs:78-109 | the checks run in the handler's order and give the same verdict as `Admit` |
| Relay.Server.HandleReply | server.mjs:139-167 | on a model failure the user turn is annotated and "LLM call failed" goes to the caller, or "Internal server error" if the annotation throws; on success one assistant turn is appended and delivered to the identity's room |
| Relay.Server.CompleteTurn | server.mjs:111-167 | the user turn is appended before the model is called; the model receives the project's last 10 turns; a store error emits "Internal server error" and keeps the earlier writes |
| Relay.Server.OnMessage | server.mjs:76-172 | every event emits exactly one event; a refused event changes no turn and answers only the originating socket with its specific error; an admitted event completes the turn |
| ProjectsApi.Authenticate | src/app/api/projects/route.js:10-31 | given the request's cookies, a missing or empty cookie named `session` gives 401 "Unauthorized", and nothing else gives a 401; a rejected credential or a failing store gives the handler's 500, not a 401; a user lookup on a verified credential with a failing store gives the handler's 500; an unknown user gives 404 "User not found", and every 404 is that one; a known user with a working store is returned |
| ProjectsApi.OwnedNewestFirst | src/app/api/projects/route.js:85-87 | the listing is no longer than the store and every listed project belongs to the caller |
| ProjectsApi.OwnedNewestFirstMembers | src/app/api/projects/route.js:85-87 | the listing holds exactly the caller's projects |
| ProjectsApi.OwnedNewestFirstSorted | src/app/api/projects/route.js:85-87 | the listing is ordered by creation time, strictly newest first |
| ProjectsApi.NewProject | src/app/api/projects/route.js:43-49 | the stored project has the fresh id, the caller as owner, the body's name, description and prompt, and the creation time |
| ProjectsApi.List | src/app/api/projects/route.js:60-95 | GET gives the shared check's refusal when it refuses; with a known caller it answers 500 "Failed to fetch projects" when the project query fails and otherwise 200 with the caller's projects newest first; `ok` is true exactly for 200 |
| ProjectsApi.Create | src/app/api/projects/route.js:8-57 | POST checks the cookie, then the user (404), then the body and name (500, 400), and leaves the store unchanged on every refusal; a success appends exactly one project owned by the caller and returns it with 201; `ok` is true exactly for 200 or 201 |
| LoginApi.BearerFields | src/app/api/login/route.js:12-13 | a header starting with "Bearer " splits into "Bearer" followed by the fields of the rest |
| LoginApi.BearerToken | src/app/api/login/route.js:13 | the token is a prefix of the text after "Bearer " and contains no space |
| LoginApi.BearerTokenIsSecondField | src/app/api/login/route.js:12-13 | the token is the text after "Bearer " up to the next space, or to the end |
| LoginApi.IdToken | src/app/api/login/route.js:10-17 | a Bearer header gives its second field; otherwise the body's `idToken` when it is non-empty, and none for a missing or unparsable body |
| LoginApi.HeaderWinsOverBody | src/app/api/login/route.js:12-16 | a Bearer header's token is used whatever the body holds; it is empty exactly for "Bearer " alone or a header with a second space right after it |
| LoginApi.FilledName | src/app/api/login/route.js:48-51 | a stored non-empty name is kept; an empty one takes the new name when that name is non-empty |
| LoginApi.Upserted | src/app/api/login/route.js:37-52 | a successful upsert gives a stored user's id, a failed one leaves the table unchanged, and the table either keeps its length or gains exactly the new user with that e-mail and name |
| LoginApi.UpsertKeepsUidLookup | src/app/api/login/route.js:37-52 | sign-in never changes which user a provider uid resolves to, because the users it creates carry no uid |
| LoginApi.Profile | src/app/api/login/route.js:34-35 | the e-mail and the name are each the first non-empty one of the provider record's value and the token's claim, else null |
| LoginApi.UpsertUser | src/app/api/login/route.js:37-52 | the lookup by e-mail happens only when there is one; if no user is found, exactly one user is created with that e-mail and name; otherwise only an empty name is filled |
| LoginApi.SignIn | src/app/api/login/route.js:7-89 | a missing token gives 400 "Missing idToken" and nothing else is called; a failing provider call or store gives 401 "Invalid or expired token"; a success gives 200 and a `session` cookie whose max-age is 14 days |
| LoginApi.SessionSetCookie | src/app/api/login/route.js:71-80 | the cookie is named `session`, holds the session value, is HTTP-only, secure exactly in production, `lax`, for path "/", and its max-age in milliseconds is the session lifetime |
| LoginApi.SessionLifetimesAgree | src/app/api/login/route.js:54-72 | the cookie's max-age in seconds times 1000 is the session lifetime in milliseconds, which is 14 days |

## Left out

- Transport: Socket.IO and HTTP setup, and the interleaving of concurrent events at `await` points. Each inbound event runs atomically.
- Socket.IO joins each socket to a room named by its own id. Nothing is emitted to that room, so it is not modelled.
- Logging (`console.log`), and the `agentName` argument, which `callGeminiAgent` accepts but never uses.
- The module singletons `dbConnect`, `getClient` and `getFirebaseAdmin`, with their promise caches and environment reads. A failing `dbConnect` is the `ConnectFails` fault. A missing model API key is a failure of the `generate` oracle.
- `decodeURIComponent`: it is the abstract total `decode` parameter. Its exception on a malformed escape is not modelled.
- Mongoose schema validation and strict mode. Several consequences are not reflected. The list below gives the ones that change behaviour, and it may not be complete.
  - Sign-in creates users without the `firebaseUid` that the schema requires.
  - A sign-in without an e-mail would fail the schema's required `email`.
  - An empty model reply would fail the required `content` of the assistant turn, so the caller would get "Internal server error". The model instead stores and delivers an empty assistant turn.
  - The relay writes its status under `metadata`, but the schema declares `meta`. The annotation is recorded as a field of the turn.
- Identifiers: users and messages are their positions in the store, and a new project's id is supplied with a freshness precondition, standing for the database's unique ids. Malformed project ids, which make `findById` throw, are covered by the `ProjectLookupFails` fault.
- Timestamps: `Date.now` and `createdAt` are replaced by creation order. Two documents created in the same millisecond, whose relative order the store would not fix, are not modelled.
- Payload types: `projectId`, `content`, `idToken` and the project fields are modelled as optional strings. Non-string JSON values are not modelled.
- The `meta` and `description` semantics of projects: `description` is stored as given and `meta` is not stored.
- The model's sampling temperature (0.7, a floating-point setting) and the React UI, the logout and ping routes, and the static project fixture.
- The Next.js matcher `"/chat"` is read as matching exactly that path.
- The response's other cookie attributes are modelled as given: `httpOnly`, `secure` from the production flag, `sameSite` "lax" and path "/". The response's `message` string is not modelled.
- LoginApi.SignIn: "nothing else is called" for a missing token is stated only as the 400 result and the unchanged user table. The provider's calls are pure function parameters with no call log, so whether they run is not observable.
- `decode("")` is left unconstrained, although `decodeURIComponent("")` is always "". So the model does not promise that a `session` piece with no "=" carries no credential.
- An element of the model's `outputs` that is `null` makes `o.text` throw, which the relay reports as "LLM call failed". `Output` cannot be null, so this path is not modelled.
- ProjectsApi.Authenticate: "the verifier and the store are not called" without a cookie is stated only as the 401 result being independent of them, because the oracles are pure functions.
