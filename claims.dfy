/** The pure helpers of the identity-provider client: reading the claims
    of a decoded access token, the role test, the expiry test, the login
    scope, the Google sign-in redirect and the id of a created account. */
module Claims {

  import opened Seqs
  import opened Text

  datatype RealmAccess = RealmAccess(roles: Option<seq<string>>)

  /** A decoded access token, restricted to the claims the backend reads.
      Absent claims are `None`. */
  datatype TokenPayload = TokenPayload(
    sub: string,
    preferredUsername: Option<string>,
    email: Option<string>,
    givenName: Option<string>,
    familyName: Option<string>,
    realmAccess: Option<RealmAccess>,
    resourceAccess: Option<map<string, seq<string>>>,
    exp: Option<int>)

  datatype UserInfo = UserInfo(
    keycloakId: string,
    username: Option<string>,
    email: Option<string>,
    firstName: Option<string>,
    lastName: Option<string>,
    roles: seq<string>,
    resourceAccess: map<string, seq<string>>)

  /** The realm roles a token carries; none when the claim is absent. */
  function RealmRoles(payload: TokenPayload): seq<string> {
    if payload.realmAccess.Some? && payload.realmAccess.value.roles.Some?
    then payload.realmAccess.value.roles.value
    else []
  }

  /** `extractUserInfo`: null for a missing payload; otherwise the claims
      renamed, with roles defaulting to none and resource access to empty. */
  function ExtractUserInfo(payload: Option<TokenPayload>): (r: Option<UserInfo>)
    ensures r.None? <==> payload.None?
    ensures r.Some? ==>
              && r.value.keycloakId == payload.value.sub
              && r.value.username == payload.value.preferredUsername
              && r.value.email == payload.value.email
              && r.value.firstName == payload.value.givenName
              && r.value.lastName == payload.value.familyName
    ensures r.Some? && (payload.value.realmAccess.None? || payload.value.realmAccess.value.roles.None?) ==>
              r.value.roles == []
    ensures r.Some? && payload.value.realmAccess.Some? && payload.value.realmAccess.value.roles.Some? ==>
              r.value.roles == payload.value.realmAccess.value.roles.value
    ensures r.Some? ==>
              r.value.resourceAccess == (if payload.value.resourceAccess.Some? then payload.value.resourceAccess.value else map[])
  {
    match payload
    case None => None
    case Some(p) =>
      Some(UserInfo(p.sub, p.preferredUsername, p.email, p.givenName, p.familyName, RealmRoles(p),
                    if p.resourceAccess.Some? then p.resourceAccess.value else map[]))
  }

  /** `hasRole`: the token's realm roles contain `role`. */
  function HasRole(payload: Option<TokenPayload>, role: string): (r: bool)
    ensures r <==> && payload.Some?
                   && payload.value.realmAccess.Some?
                   && payload.value.realmAccess.value.roles.Some?
                   && role in payload.value.realmAccess.value.roles.value
  {
    match ExtractUserInfo(payload)
    case None => false
    case Some(info) => role in info.roles
  }

  /** `isTokenExpired` with the clock reading `nowMs` (milliseconds since
      the epoch) passed in. An absent or zero `exp` counts as expired, as
      the source's falsiness test does. */
  function IsTokenExpired(payload: Option<TokenPayload>, nowMs: nat): (r: bool)
    ensures payload.None? || payload.value.exp.None? || payload.value.exp == Some(0) ==> r
    ensures payload.Some? && payload.value.exp.Some? && payload.value.exp.value != 0 ==>
              (r <==> (payload.value.exp.value + 1) * 1000 <= nowMs)
  {
    if payload.None? || payload.value.exp.None? || payload.value.exp.value == 0 then true
    else
      var currentTime := nowMs / 1000;
      payload.value.exp.value < currentTime
  }

  /** A token whose expiry second is the current second is still valid. */
  lemma NotExpiredWithinExpirySecond(payload: TokenPayload, nowMs: nat)
    requires payload.exp.Some? && payload.exp.value != 0
    requires nowMs / 1000 == payload.exp.value
    ensures !IsTokenExpired(Some(payload), nowMs)
  {
  }

  /** Once expired, a token stays expired as the clock advances. */
  lemma ExpiryIsMonotone(payload: Option<TokenPayload>, earlier: nat, later: nat)
    requires earlier <= later
    requires IsTokenExpired(payload, earlier)
    ensures IsTokenExpired(payload, later)
  {
  }

  // ---------------------------------------------------------------------
  // Login scope

  const BaseScopes: seq<string> := ["openid", "profile", "email"]
  const OfflineAccess := "offline_access"

  /** The scopes requested at login; `offline_access` only with "remember me". */
  function LoginScopes(rememberMe: bool): seq<string> {
    if rememberMe then BaseScopes + [OfflineAccess] else BaseScopes
  }

  /** The `scope` form field of the password login. */
  function LoginScope(rememberMe: bool): string {
    if rememberMe then "openid profile email offline_access" else "openid profile email"
  }

  lemma BaseScopeText()
    ensures Join(BaseScopes, ' ') == "openid profile email"
  {
    assert Join(["email"], ' ') == "email";
    assert Join(["profile", "email"], ' ') == "profile" + " " + "email";
  }

  lemma OfflineScopeText()
    ensures Join(BaseScopes + [OfflineAccess], ' ') == "openid profile email offline_access"
  {
    BaseScopeText();
    JoinSnoc(BaseScopes, OfflineAccess, ' ');
  }

  /** The identity provider reads the scope back as its space-separated
      words: `offline_access` is among them exactly with "remember me",
      and the base scopes always are. */
  lemma LoginScopeWords(rememberMe: bool)
    ensures SplitOn(LoginScope(rememberMe), ' ') == LoginScopes(rememberMe)
    ensures OfflineAccess in SplitOn(LoginScope(rememberMe), ' ') <==> rememberMe
    ensures forall w :: w in BaseScopes ==> w in SplitOn(LoginScope(rememberMe), ' ')
  {
    var words := LoginScopes(rememberMe);
    forall k | 0 <= k < |words| ensures ' ' !in words[k] {
    }
    if rememberMe { OfflineScopeText(); } else { BaseScopeText(); }
    SplitJoin(words, ' ');
  }

  // ---------------------------------------------------------------------
  // Google sign-in redirect

  /** The client's configuration, read from the environment at start-up. */
  datatype ClientConfig = ClientConfig(keycloakUrl: string, realm: string, clientId: string, frontendUrl: string)

  function AuthEndpoint(c: ClientConfig): string {
    c.keycloakUrl + "/realms/" + c.realm + "/protocol/openid-connect/auth"
  }

  /** One `name=value` query parameter as written. */
  function Assign(name: string, value: string): string {
    name + "=" + value
  }

  /** `getGoogleRedirectUrl`: the authorization endpoint with five query
      parameters, the last naming Google as the identity provider. */
  function GoogleRedirectUrl(c: ClientConfig): string {
    AuthEndpoint(c) + "?" +
    Assign("client_id", c.clientId) +
    "&" + Assign("redirect_uri", c.frontendUrl + "/en/success") +
    "&" + Assign("response_type", "code") +
    "&" + Assign("scope", "openid") +
    "&" + Assign("kc_idp_hint", "google")
  }

  /** One `name=value` query parameter. */
  datatype Param = Param(name: string, value: string)

  /** Splits a parameter at its first '='. */
  function ParseParam(p: string): Param {
    match IndexOf(p, '=')
    case None => Param(p, "")
    case Some(i) => Param(p[..i], p[i + 1..])
  }

  /** The parameters of the query string of `url` (what follows its first
      '?'), in order. */
  function QueryParams(url: string): seq<Param> {
    match IndexOf(url, '?')
    case None => []
    case Some(i) =>
      ParseAll(SplitOn(url[i + 1..], '&'))
  }

  function ParseAll(pieces: seq<string>): (r: seq<Param>)
    ensures |r| == |pieces|
    ensures forall k :: 0 <= k < |pieces| ==> r[k] == ParseParam(pieces[k])
  {
    seq(|pieces|, k requires 0 <= k < |pieces| => ParseParam(pieces[k]))
  }

  lemma ParseNamed(name: string, value: string)
    requires '=' !in name
    ensures ParseParam(Assign(name, value)) == Param(name, value)
  {
    IndexOfAfter(name, '=', value);
    var p := name + "=" + value;
    assert p[..|name|] == name && p[|name| + 1..] == value;
  }

  const GoogleParamNames: seq<string> := ["client_id", "redirect_uri", "response_type", "scope", "kc_idp_hint"]

  function GoogleParamValues(c: ClientConfig): seq<string> {
    [c.clientId, c.frontendUrl + "/en/success", "code", "openid", "google"]
  }

  /** The parameters the redirect is meant to carry. */
  function GoogleParams(c: ClientConfig): (r: seq<Param>)
    ensures |r| == 5
  {
    var values := GoogleParamValues(c);
    seq(5, k requires 0 <= k < 5 => Param(GoogleParamNames[k], values[k]))
  }

  /** The redirect's query parameters as written, in order. */
  function GooglePieces(c: ClientConfig): (r: seq<string>)
    ensures |r| == 5
  {
    var values := GoogleParamValues(c);
    seq(5, k requires 0 <= k < 5 => Assign(GoogleParamNames[k], values[k]))
  }

  lemma GoogleRedirectShape(c: ClientConfig)
    ensures GoogleRedirectUrl(c) == AuthEndpoint(c) + "?" + Join(GooglePieces(c), '&')
  {
    var pieces := GooglePieces(c);
    assert pieces == [Assign("client_id", c.clientId), Assign("redirect_uri", c.frontendUrl + "/en/success"),
                      Assign("response_type", "code"), Assign("scope", "openid"), Assign("kc_idp_hint", "google")];
    assert Join(pieces[4..], '&') == pieces[4];
    assert Join(pieces[3..], '&') == pieces[3] + "&" + pieces[4];
    assert Join(pieces[2..], '&') == pieces[2] + "&" + Join(pieces[3..], '&');
    assert Join(pieces[1..], '&') == pieces[1] + "&" + Join(pieces[2..], '&');
  }

  lemma QueryParamsOf(base: string, query: string)
    requires '?' !in base
    ensures QueryParams(base + "?" + query) == ParseAll(SplitOn(query, '&'))
  {
    IndexOfAfter(base, '?', query);
    assert (base + "?" + query)[|base| + 1..] == query;
  }

  /** Parameters written as `name=value` with '='-free names parse back. */
  lemma ParseAssigns(names: seq<string>, values: seq<string>)
    requires |names| == |values|
    requires forall k :: 0 <= k < |names| ==> '=' !in names[k]
    ensures ParseAll(seq(|names|, k requires 0 <= k < |names| => Assign(names[k], values[k])))
            == seq(|names|, k requires 0 <= k < |names| => Param(names[k], values[k]))
  {
    forall k | 0 <= k < |names| ensures ParseParam(Assign(names[k], values[k])) == Param(names[k], values[k]) {
      ParseNamed(names[k], values[k]);
    }
  }

  lemma GooglePiecesParse(c: ClientConfig)
    ensures ParseAll(GooglePieces(c)) == GoogleParams(c)
  {
    assert forall k :: 0 <= k < |GoogleParamNames| ==> '=' !in GoogleParamNames[k];
    ParseAssigns(GoogleParamNames, GoogleParamValues(c));
  }

  /** Read back by a URL parser, the redirect carries exactly these
      parameters in this order: the client id, the front end's success
      page as the redirect target, an authorization-code flow, the
      `openid` scope and Google as the identity provider. */
  lemma GoogleRedirectParams(c: ClientConfig)
    requires '?' !in c.keycloakUrl && '?' !in c.realm
    requires '&' !in c.clientId && '&' !in c.frontendUrl
    ensures QueryParams(GoogleRedirectUrl(c)) == GoogleParams(c)
  {
    GoogleRedirectQuery(c);
    GooglePiecesSplit(c);
    GooglePiecesParse(c);
  }

  lemma GoogleRedirectQuery(c: ClientConfig)
    requires '?' !in c.keycloakUrl && '?' !in c.realm
    ensures QueryParams(GoogleRedirectUrl(c)) == ParseAll(SplitOn(Join(GooglePieces(c), '&'), '&'))
  {
    GoogleRedirectShape(c);
    assert '?' !in AuthEndpoint(c);
    QueryParamsOf(AuthEndpoint(c), Join(GooglePieces(c), '&'));
  }

  lemma GooglePiecesSplit(c: ClientConfig)
    requires '&' !in c.clientId && '&' !in c.frontendUrl
    ensures SplitOn(Join(GooglePieces(c), '&'), '&') == GooglePieces(c)
  {
    var pieces := GooglePieces(c);
    forall k | 0 <= k < |pieces| ensures '&' !in pieces[k] {
      assert '&' !in GoogleParamNames[k];
    }
    SplitJoin(pieces, '&');
  }

  // ---------------------------------------------------------------------
  // Created account id

  /** The id of an account the admin API created: the last '/'-separated
      segment of the `Location` header; `None` (the source's empty-object
      fallback) when the header is missing or that segment is empty. */
  function CreatedUserId(location: Option<string>): (r: Option<string>)
    ensures location.None? ==> r.None?
    ensures location.Some? ==> (r.None? <==> location.value == [] || location.value[|location.value| - 1] == '/')
    ensures r.Some? ==>
              var l := location.value;
              && r.value != [] && '/' !in r.value
              && |r.value| <= |l| && l[|l| - |r.value|..] == r.value
              && (|r.value| == |l| || l[|l| - |r.value| - 1] == '/')
  {
    match location
    case None => None
    case Some(l) =>
      var segments := SplitOn(l, '/');
      var id := segments[|segments| - 1];
      LastPieceIsAfterLast(l, '/');
      if id == "" then None else Some(id)
  }
}
