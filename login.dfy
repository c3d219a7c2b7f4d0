// The sign-in route of src/app/api/login/route.js: take the identity provider's
// ID token from an `Authorization: Bearer` header (section 2.1 of RFC 6750, read
// as the second space-separated field) or from the JSON body, verify it, make
// sure an application user exists for its e-mail address, and set a 14-day
// `session` cookie. The provider's calls are oracles (None = it threw); every
// thrown error becomes a 401.
module LoginApi {
  import opened Wrappers
  import opened Text
  import opened Store
  import opened Cookies

  const BearerPrefix := "Bearer "
  const FieldSeparator := " "
  const MissingToken := "Missing idToken"
  const InvalidToken := "Invalid or expired token"

  /** The session lifetime: 14 days, in milliseconds for the provider and in seconds for the cookie. */
  const ExpiresInMs: nat := 14 * 24 * 60 * 60 * 1000
  const MaxAgeSeconds: nat := 14 * 24 * 60 * 60

  /** The JSON body; a body that does not parse is read as `{}`, i.e. no token. */
  datatype LoginBody = LoginBody(idToken: Option<string>)

  /** The claims of a verified ID token. */
  datatype IdClaims = IdClaims(uid: string, email: Option<string>, name: Option<string>)

  /** The provider's user record (`getUser(uid)`). */
  datatype ProviderUser = ProviderUser(email: Option<string>, displayName: Option<string>)

  datatype SetCookie = SetCookie(
    name: string, value: string, httpOnly: bool, secure: bool, sameSite: string, path: string, maxAge: nat)

  datatype Body =
    | Failed(error: string)
    | SignedIn(uid: string, email: Option<string>, name: Option<string>, userId: UserId)

  datatype Response = Response(status: nat, ok: bool, body: Body, cookie: Option<SetCookie>)

  /** The store call that throws, if the handler reaches it. */
  datatype LoginFault = ConnectFails | LookupFails | WriteFails

  function Fail(status: nat, error: string): Response
  {
    Response(status, false, Failed(error), None)
  }

  /** A header that starts with "Bearer " splits into "Bearer" and the fields of the rest. */
  lemma BearerFields(header: string)
    requires StartsWith(header, BearerPrefix)
    ensures Split(header, FieldSeparator) == ["Bearer"] + Split(header[|BearerPrefix|..], FieldSeparator)
  {
    assert OccursAt(header, FieldSeparator, 6) by {
      assert header[6] == BearerPrefix[6];
    }
    forall j | 0 <= j < 6
      ensures !OccursAt(header, FieldSeparator, j)
    {
      assert header[j] == BearerPrefix[j];
    }
    assert IndexOf(header, FieldSeparator, 0) == Some(6);
    SplitHead(header, FieldSeparator);
    assert header[..6] == "Bearer";
  }

  /** `authHeader.split(" ")[1]` for a header that starts with "Bearer ". */
  function BearerToken(header: string): (token: string)
    requires StartsWith(header, BearerPrefix)
    ensures StartsWith(header[|BearerPrefix|..], token)
    ensures forall j :: 0 <= j < |token| ==> token[j] != ' '
  {
    BearerFields(header);
    var rest := header[|BearerPrefix|..];
    var token := Split(rest, FieldSeparator)[0];
    SplitHead(rest, FieldSeparator);
    assert forall j :: 0 <= j < |token| ==> token[j] != ' ' by {
      forall j | 0 <= j < |token|
        ensures token[j] != ' '
      {
        SplitPiecesFree(rest, FieldSeparator, 0, j);
        assert token[j..j + 1] == [token[j]];
      }
    }
    Split(header, FieldSeparator)[1]
  }

  /**
   * The token is the text after "Bearer " up to the next space, or to the end:
   * "Bearer " alone, or "Bearer  x", gives the empty token.
   */
  lemma BearerTokenIsSecondField(header: string)
    requires StartsWith(header, BearerPrefix)
    ensures var rest := header[|BearerPrefix|..];
      match IndexOf(rest, FieldSeparator, 0)
      case None => BearerToken(header) == rest
      case Some(i) => BearerToken(header) == rest[..i]
  {
    BearerFields(header);
    SplitHead(header[|BearerPrefix|..], FieldSeparator);
  }

  /** `idToken`: from a Bearer header when there is one, otherwise `body?.idToken || null`. */
  function IdToken(authHeader: Option<string>, body: Option<LoginBody>): (token: Option<string>)
    ensures authHeader.Some? && StartsWith(authHeader.value, BearerPrefix) ==> token == Some(BearerToken(authHeader.value))
    ensures !(authHeader.Some? && StartsWith(authHeader.value, BearerPrefix)) ==>
      (token.Some? <==> body.Some? && Present(body.value.idToken))
    ensures !(authHeader.Some? && StartsWith(authHeader.value, BearerPrefix)) && token.Some? ==>
      token == body.value.idToken
  {
    if authHeader.Some? && StartsWith(authHeader.value, BearerPrefix) then Some(BearerToken(authHeader.value))
    else if body.Some? && Present(body.value.idToken) then body.value.idToken
    else None
  }

  /**
   * A Bearer header wins over the body, even when its token is empty, which happens
   * exactly for "Bearer " alone and for a header with a second space right after it.
   */
  lemma HeaderWinsOverBody(header: string, body: Option<LoginBody>)
    requires StartsWith(header, BearerPrefix)
    ensures IdToken(Some(header), body) == Some(BearerToken(header))
    ensures BearerToken(header) == "" <==> header == BearerPrefix || StartsWith(header, BearerPrefix + FieldSeparator)
  {
    BearerTokenIsSecondField(header);
    var rest := header[|BearerPrefix|..];
    assert header == BearerPrefix + rest;
    assert StartsWith(header, BearerPrefix + FieldSeparator) <==> OccursAt(rest, FieldSeparator, 0) by {
      if |rest| > 0 {
        assert header[|BearerPrefix|] == rest[0];
      }
    }
  }

  /** The stored name after sign-in: an existing name is kept; an empty one is filled when a name is known. */
  function FilledName(stored: Option<string>, incoming: Option<string>): (r: Option<string>)
    ensures Present(stored) ==> r == stored
    ensures !Present(stored) && Present(incoming) ==> r == incoming
    ensures r != stored ==> !Present(stored) && Present(incoming)
  {
    if !Present(stored) && Present(incoming) then incoming else stored
  }

  /**
   * The user upsert, from the user table `before` to `after`, with `r` the user's id
   * or None when a store call threw: look up by e-mail only when there is one; create
   * one user with that e-mail and name when none is found; otherwise fill an empty name.
   */
  ghost predicate Upserted(before: seq<User>, after: seq<User>, email: Option<string>, name: Option<string>,
                           fault: Option<LoginFault>, r: Option<UserId>)
    ensures Upserted(before, after, email, name, fault, r) ==>
      && (r.Some? ==> r.value < |after|)
      && (r.None? ==> after == before)
      && (|after| == |before| || after == before + [User(email, name, None)])
  {
    var found := if Present(email) then FindUserByEmail(before, email.value) else None;
    if fault == Some(ConnectFails) || (fault == Some(LookupFails) && Present(email)) then
      r.None? && after == before
    else if found.None? then
      if fault == Some(WriteFails) then r.None? && after == before
      else r == Some(|before|) && after == before + [User(email, name, None)]
    else
      var u := found.value;
      var filled := FilledName(before[u].name, name);
      if filled != before[u].name && fault == Some(WriteFails) then r.None? && after == before
      else r == Some(u) && after == before[u := before[u].(name := filled)]
  }

  /**
   * Sign-in never changes which application user an identity resolves to: users it
   * creates carry no provider uid, and it only ever fills in a name. The relay and the
   * project routes look users up by that uid.
   */
  lemma UpsertKeepsUidLookup(before: seq<User>, after: seq<User>, email: Option<string>, name: Option<string>,
                             fault: Option<LoginFault>, r: Option<UserId>, uid: string)
    requires Upserted(before, after, email, name, fault, r)
    ensures FindUserByUid(after, uid) == FindUserByUid(before, uid)
  {
    var matches := (u: User) => u.firebaseUid == Some(uid);
    if after != before {
      var found := if Present(email) then FindUserByEmail(before, email.value) else None;
      if found.None? {
        FirstMatchAppend(before, User(email, name, None), matches);
      } else {
        var u := found.value;
        FirstMatchUpdate(before, u, before[u].(name := FilledName(before[u].name, name)), matches);
      }
    }
  }

  /** The e-mail and name the route keeps: the provider record's first, then the token's. */
  function Profile(user: ProviderUser, claims: IdClaims): (r: (Option<string>, Option<string>))
    ensures r.0 == FirstPresent(user.email, claims.email)
    ensures r.1 == FirstPresent(user.displayName, claims.name)
  {
    (FirstPresent(user.email, claims.email), FirstPresent(user.displayName, claims.name))
  }

  /** Find the user by e-mail, then create it or fill its missing name. */
  method UpsertUser(db: Database, email: Option<string>, name: Option<string>, fault: Option<LoginFault>)
    returns (r: Option<UserId>)
    modifies db
    ensures db.projects == old(db.projects) && db.messages == old(db.messages) && db.clock == old(db.clock)
    ensures Upserted(old(db.users), db.users, email, name, fault, r)
    ensures r.Some? ==> r.value < |db.users|
  {
    if fault == Some(ConnectFails) {
      return None;
    }
    var found: Option<UserId> := None;
    if Present(email) {
      if fault == Some(LookupFails) {
        return None;
      }
      found := FindUserByEmail(db.users, email.value);
    }
    if found.None? {
      if fault == Some(WriteFails) {
        return None;
      }
      db.users := db.users + [User(email, name, None)];
      return Some(|db.users| - 1);
    }
    var u := found.value;
    if !Present(db.users[u].name) && Present(name) {
      if fault == Some(WriteFails) {
        return None;
      }
      db.users := db.users[u := db.users[u].(name := name)];
    }
    return Some(u);
  }

  /**
   * The `Set-Cookie` a successful sign-in sends: the `session` cookie the relay and the
   * routes read, hidden from scripts, secure in production, and living as long as the session.
   */
  function SessionSetCookie(value: string, isProduction: bool): (c: SetCookie)
    ensures c.name == SessionCookieName && c.value == value
    ensures c.httpOnly && c.secure == isProduction && c.sameSite == "lax" && c.path == "/"
    ensures c.maxAge * 1000 == ExpiresInMs
  {
    SetCookie(SessionCookieName, value, true, isProduction, "lax", "/", MaxAgeSeconds)
  }

  /**
   * POST. `verifyIdToken`, `getUser` and `createSessionCookie` are the provider's
   * calls; `isProduction` is the environment's NODE_ENV test.
   */
  method SignIn(
    db: Database, authHeader: Option<string>, body: Option<LoginBody>,
    verifyIdToken: string -> Option<IdClaims>, getUser: string -> Option<ProviderUser>,
    createSessionCookie: (string, nat) -> Option<string>, isProduction: bool, fault: Option<LoginFault>)
    returns (r: Response)
    modifies db
    ensures db.projects == old(db.projects) && db.messages == old(db.messages) && db.clock == old(db.clock)
    ensures r.ok <==> r.status == 200
    ensures r.status in {200, 400, 401}
    ensures r.cookie.Some? <==> r.status == 200
    ensures var token := IdToken(authHeader, body);
      && (!Present(token) ==> r == Fail(400, MissingToken) && db.users == old(db.users))
      && (Present(token) && verifyIdToken(token.value).None? ==>
            r == Fail(401, InvalidToken) && db.users == old(db.users))
      && (Present(token) && verifyIdToken(token.value).Some? && getUser(verifyIdToken(token.value).value.uid).None? ==>
            r == Fail(401, InvalidToken) && db.users == old(db.users))
    ensures var token := IdToken(authHeader, body);
      Present(token) && verifyIdToken(token.value).Some? && getUser(verifyIdToken(token.value).value.uid).Some? ==>
        var claims := verifyIdToken(token.value).value;
        var profile := Profile(getUser(claims.uid).value, claims);
        exists id :: Upserted(old(db.users), db.users, profile.0, profile.1, fault, id)
          && (id.None? ==> r == Fail(401, InvalidToken))
          && (id.Some? && createSessionCookie(token.value, ExpiresInMs).None? ==> r == Fail(401, InvalidToken))
          && (id.Some? && createSessionCookie(token.value, ExpiresInMs).Some? ==>
                r == Response(200, true, SignedIn(claims.uid, profile.0, profile.1, id.value),
                              Some(SessionSetCookie(createSessionCookie(token.value, ExpiresInMs).value, isProduction))))
  {
    var token := IdToken(authHeader, body);
    if !Present(token) {
      return Fail(400, MissingToken);
    }
    var claims := verifyIdToken(token.value);
    if claims.None? {
      return Fail(401, InvalidToken);
    }
    var user := getUser(claims.value.uid);
    if user.None? {
      return Fail(401, InvalidToken);
    }
    var profile := Profile(user.value, claims.value);
    var id := UpsertUser(db, profile.0, profile.1, fault);
    if id.None? {
      return Fail(401, InvalidToken);
    }
    var session := createSessionCookie(token.value, ExpiresInMs);
    if session.None? {
      return Fail(401, InvalidToken);
    }
    r := Response(200, true, SignedIn(claims.value.uid, profile.0, profile.1, id.value),
                  Some(SessionSetCookie(session.value, isProduction)));
  }

  /** The cookie's lifetime and the provider session's lifetime agree: both are 14 days. */
  lemma SessionLifetimesAgree()
    ensures MaxAgeSeconds * 1000 == ExpiresInMs
    ensures MaxAgeSeconds == 14 * 86400
  {
  }
}
