// The socket server's `parseCookies` (server.mjs): a simplified reading of the
// `Cookie` header of section 4.2.1 of RFC 6265. Pairs are separated by "; ",
// the name is the text before the first "=", the value is everything after it,
// percent-decoded, and a later pair with the same name replaces an earlier one.
module Cookies {
  import opened Wrappers
  import opened Text

  const PairSeparator := "; "
  const NameSeparator := "="
  /** The cookie that carries the identity provider's session credential. */
  const SessionCookieName := "session"

  /** One piece split at its "=" signs: the first field is the name, the rest re-joined with "=" the raw value. */
  function CookiePair(c: string): (pair: (string, string))
    ensures StartsWith(c, pair.0)
    ensures IndexOf(c, NameSeparator, 0).None? ==> pair == (c, "")
  {
    var parts := Split(c, NameSeparator);
    (parts[0], Join(parts[1..], NameSeparator))
  }

  /** The name is the text before the first "=", the raw value all text after it ("" when there is no "="). */
  lemma {:induction false} CookiePairAtFirstEquals(c: string)
    ensures IndexOf(c, NameSeparator, 0).None? ==> CookiePair(c) == (c, "")
    ensures IndexOf(c, NameSeparator, 0).Some? ==>
      var i := IndexOf(c, NameSeparator, 0).value;
      CookiePair(c) == (c[..i], c[i + 1..])
  {
    SplitHead(c, NameSeparator);
    match IndexOf(c, NameSeparator, 0)
    case None =>
    case Some(i) =>
      JoinSplit(c[i + 1..], NameSeparator);
  }

  /** The name never contains "=". */
  lemma CookieNameHasNoEquals(c: string)
    ensures forall j :: 0 <= j < |CookiePair(c).0| ==> CookiePair(c).0[j] != '='
  {
    forall j | 0 <= j < |CookiePair(c).0|
      ensures CookiePair(c).0[j] != '='
    {
      SplitPiecesFree(c, NameSeparator, 0, j);
    }
  }

  /** The `[name, decodedValue]` entries, one per "; "-separated piece, in header order. */
  function Entries(pieces: seq<string>, decode: string -> string): (es: seq<(string, string)>)
    ensures |es| == |pieces|
    ensures forall k :: 0 <= k < |pieces| ==>
      es[k] == (CookiePair(pieces[k]).0, decode(CookiePair(pieces[k]).1))
  {
    seq(|pieces|, k requires 0 <= k < |pieces| => (CookiePair(pieces[k]).0, decode(CookiePair(pieces[k]).1)))
  }

  /** `Object.fromEntries`: entries are installed in order, so a later name overwrites an earlier one. */
  function FromEntries(es: seq<(string, string)>): (m: map<string, string>)
    ensures |es| == 0 ==> m == map[]
    ensures |es| > 0 ==> es[|es| - 1].0 in m && m[es[|es| - 1].0] == es[|es| - 1].1
  {
    if |es| == 0 then map[] else FromEntries(es[..|es| - 1])[es[|es| - 1].0 := es[|es| - 1].1]
  }

  /** The keys are exactly the names that occur among the entries. */
  lemma {:induction false} FromEntriesKeys(es: seq<(string, string)>)
    ensures FromEntries(es).Keys == set i | 0 <= i < |es| :: es[i].0
  {
    if |es| > 0 {
      var init := es[..|es| - 1];
      FromEntriesKeys(init);
      assert forall i :: 0 <= i < |init| ==> init[i] == es[i];
      assert (set i | 0 <= i < |es| :: es[i].0) == (set i | 0 <= i < |init| :: init[i].0) + {es[|es| - 1].0};
    }
  }

  /** For a repeated name, the value of its last entry wins. */
  lemma {:induction false} FromEntriesLastWins(es: seq<(string, string)>, i: nat)
    requires i < |es|
    requires forall j :: i < j < |es| ==> es[j].0 != es[i].0
    ensures es[i].0 in FromEntries(es) && FromEntries(es)[es[i].0] == es[i].1
  {
    if i < |es| - 1 {
      var init := es[..|es| - 1];
      assert init[i] == es[i];
      FromEntriesLastWins(init, i);
    }
  }

  /** `parseCookies(cookieHeader)` with `decodeURIComponent` given as `decode`. */
  function ParseCookies(header: string, decode: string -> string): (cookies: map<string, string>)
    ensures header == "" ==> cookies == map[]
    ensures header != "" ==>
      var pieces := Split(header, PairSeparator);
      var last := CookiePair(pieces[|pieces| - 1]);
      last.0 in cookies && cookies[last.0] == decode(last.1)
  {
    if header == "" then map[]
    else FromEntries(Entries(Split(header, PairSeparator), decode))
  }

  /** An empty header gives no cookies; otherwise the names are those of the "; "-separated pieces. */
  lemma ParseCookiesKeys(header: string, decode: string -> string)
    ensures header == "" ==> ParseCookies(header, decode) == map[]
    ensures header != "" ==>
      var pieces := Split(header, PairSeparator);
      ParseCookies(header, decode).Keys == set k | 0 <= k < |pieces| :: CookiePair(pieces[k]).0
  {
    if header != "" {
      var pieces := Split(header, PairSeparator);
      var es := Entries(pieces, decode);
      FromEntriesKeys(es);
      assert (set i | 0 <= i < |es| :: es[i].0) == set k | 0 <= k < |pieces| :: CookiePair(pieces[k]).0;
    }
  }

  /**
   * The value of the last piece named `name` is that piece's text after its first "=",
   * percent-decoded, even when that text itself contains "=" ("a=b=c" gives `a` the value "b=c").
   */
  lemma ParseCookiesLastPieceWins(header: string, decode: string -> string, k: nat)
    requires header != ""
    requires k < |Split(header, PairSeparator)|
    requires var pieces := Split(header, PairSeparator);
      forall j :: k < j < |pieces| ==> CookiePair(pieces[j]).0 != CookiePair(pieces[k]).0
    ensures var piece := Split(header, PairSeparator)[k];
      var cookies := ParseCookies(header, decode);
      match IndexOf(piece, NameSeparator, 0)
      case None => piece in cookies && cookies[piece] == decode("")
      case Some(i) => piece[..i] in cookies && cookies[piece[..i]] == decode(piece[i + 1..])
  {
    var pieces := Split(header, PairSeparator);
    var es := Entries(pieces, decode);
    assert ParseCookies(header, decode) == FromEntries(es);
    assert es[k] == (CookiePair(pieces[k]).0, decode(CookiePair(pieces[k]).1));
    FromEntriesLastWins(es, k);
    CookiePairAtFirstEquals(pieces[k]);
  }

  /** The value of the `session` cookie among a request's parsed cookies, if it has one. */
  function SessionOf(cookies: map<string, string>): (session: Option<string>)
    ensures session.Some? <==> SessionCookieName in cookies
    ensures session.Some? ==> session.value == cookies[SessionCookieName]
  {
    if SessionCookieName in cookies then Some(cookies[SessionCookieName]) else None
  }

  /**
   * `cookies.session` for a handshake whose cookie header is `header` (`headers.cookie || ""`).
   * A handshake without a cookie header, or with an empty one, carries no session credential;
   * otherwise the credential is the parsed value of the `session` cookie.
   */
  function SessionCookie(header: Option<string>, decode: string -> string): (session: Option<string>)
    ensures !Present(header) ==> session.None?
    ensures Present(header) ==>
      var cookies := ParseCookies(header.value, decode);
      (session.Some? <==> SessionCookieName in cookies)
      && (session.Some? ==> session.value == cookies[SessionCookieName])
  {
    SessionOf(ParseCookies(header.GetOr(""), decode))
  }
}
