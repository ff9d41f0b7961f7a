/** Where a request's access token, webapp passport and CSRF token are found,
    and the cookies that set and clear them. The request is three dictionaries;
    the response is the list of `Set-Cookie` records it has accumulated. */
module Token {
  import opened Common

  /** The cookie and header names fixed by the application's constants. */
  datatype Names = Names(accessToken: string, refreshToken: string, passport: string, csrfToken: string,
                         csrfHeader: string)

  /** The configuration values read here. */
  datatype Config = Config(consoleWebUrl: string, consoleApiUrl: string, accessTokenExpireMinutes: int)

  /** A request: headers (by canonical name), the cookies in the order the
      request lists them, and the query arguments. */
  datatype Request = Request(headers: map<string, string>, cookies: seq<(string, string)>, args: map<string, string>)

  /** `d.get(key)` on a dictionary. */
  function Get(d: map<string, string>, key: string): Option<string> {
    if key in d then Some(d[key]) else None
  }

  /** `request.cookies.get(name)`: the first cookie of that name. */
  function Cookie(cookies: seq<(string, string)>, name: string): (r: Option<string>)
    ensures r.None? <==> forall k :: 0 <= k < |cookies| ==> cookies[k].0 != name
    ensures r.Some? ==> exists k :: 0 <= k < |cookies| && cookies[k] == (name, r.value)
  {
    if cookies == [] then None
    else if cookies[0].0 == name then Some(cookies[0].1)
    else
      var r := Cookie(cookies[1..], name);
      assert forall k :: 0 <= k < |cookies| - 1 ==> cookies[1..][k] == cookies[k + 1];
      r
  }

  /** A string counts as present in a Python `or` chain only when non-empty. */
  predicate Truthy(o: Option<string>) {
    o.Some? && o.value != ""
  }

  /** Python's `a or b`. */
  function Or(a: Option<string>, b: Option<string>): Option<string> {
    if Truthy(a) then a else b
  }

  // ---------------------------------------------------------------------------
  // Reading tokens
  // ---------------------------------------------------------------------------

  /** `is_secure`: both console URLs use https. */
  predicate IsSecure(config: Config) {
    StartsWith(config.consoleWebUrl, "https") && StartsWith(config.consoleApiUrl, "https")
  }

  /** `_try_extract_from_header` as written: the value is split once on
      whitespace and unpacked into two names, which raises when the value is
      a single word followed by whitespace (or whitespace alone). */
  function TryExtractFromHeaderAsWritten(headers: map<string, string>): (r: Result<Option<string>>)
    ensures r.Err? ==> r.error.ValueError?
  {
    var authHeader := Get(headers, "Authorization");
    if !Truthy(authHeader) then Ok(None)
    else if ' ' !in authHeader.value then Ok(None)
    else
      var parts := SplitOnce(authHeader.value);
      if |parts| != 2 then Err(ValueError("not enough values to unpack (expected 2)"))
      else if !LowerEquals(parts[0], "bearer") then Ok(None)
      else Ok(Some(parts[1]))
  }

  /** `_try_extract_from_header` as intended: a malformed value yields no
      token instead of an exception. */
  function TryExtractFromHeader(headers: map<string, string>): (r: Option<string>)
    ensures !Truthy(Get(headers, "Authorization")) ==> r.None?
    ensures ' ' !in Get(headers, "Authorization").GetOr("") ==> r.None?
    ensures r.Some? ==> r.value != "" && !IsSpace(r.value[0])
  {
    var authHeader := Get(headers, "Authorization");
    if !Truthy(authHeader) then None
    else if ' ' !in authHeader.value then None
    else
      var parts := SplitOnce(authHeader.value);
      if |parts| != 2 then None
      else if !LowerEquals(parts[0], "bearer") then None
      else Some(parts[1])
  }

  /** The corrected parser differs from the one as written only where the
      latter raises. */
  lemma TryExtractFromHeaderAgrees(headers: map<string, string>)
    ensures TryExtractFromHeaderAsWritten(headers).Ok? ==>
              TryExtractFromHeaderAsWritten(headers).value == TryExtractFromHeader(headers)
    ensures TryExtractFromHeaderAsWritten(headers).Err? ==> TryExtractFromHeader(headers).None?
  {
  }

  /** The header "Bearer " makes the parser as written raise, while the
      corrected one finds no token. */
  lemma BearerWithoutToken()
    ensures TryExtractFromHeaderAsWritten(map["Authorization" := "Bearer "]).Err?
    ensures TryExtractFromHeader(map["Authorization" := "Bearer "]).None?
  {
    var h := "Bearer ";
    assert SkipSpaces(h, 0) == 0;
    assert SkipWord(h, 0) == 6 by {
      assert IsSpace(h[6]);
    }
    assert SplitOnce(h) == [h[0..6]];
  }

  /** A scheme word followed by one space and a token splits into exactly
      those two parts. */
  lemma SplitSchemeAndToken(scheme: string, token: string)
    requires scheme != [] && forall k :: 0 <= k < |scheme| ==> !IsSpace(scheme[k])
    requires token != [] && !IsSpace(token[0])
    ensures SplitOnce(scheme + " " + token) == [scheme, token]
  {
    var h := scheme + " " + token;
    var n := |scheme|;
    assert h[0] == scheme[0];
    assert SkipSpaces(h, 0) == 0;
    assert IsSpace(h[n]);
    assert SkipWord(h, 0) == n;
    assert h[n + 1] == token[0];
    assert SkipSpaces(h, n) == n + 1 by {
      assert SkipSpaces(h, n) == SkipSpaces(h, n + 1);
    }
    assert h[0..n] == scheme;
    assert h[n + 1..] == token;
  }

  /** Round trip: a bearer header built from a token, with the scheme in any
      letter case, yields that token. */
  lemma BearerRoundTrip(scheme: string, token: string)
    requires LowerEquals(scheme, "bearer")
    requires token != [] && !IsSpace(token[0])
    ensures TryExtractFromHeader(map["Authorization" := scheme + " " + token]) == Some(token)
  {
    forall k | 0 <= k < |scheme| ensures !IsSpace(scheme[k]) {
      assert AsciiLower(scheme[k]) == "bearer"[k];
    }
    SplitSchemeAndToken(scheme, token);
    assert ' ' in scheme + " " + token by {
      assert (scheme + " " + token)[|scheme|] == ' ';
    }
  }

  /** Any scheme other than "bearer" (in any letter case) yields no token. */
  lemma OtherSchemeRejected(scheme: string, token: string)
    requires scheme != [] && forall k :: 0 <= k < |scheme| ==> !IsSpace(scheme[k])
    requires token != [] && !IsSpace(token[0])
    requires !LowerEquals(scheme, "bearer")
    ensures TryExtractFromHeader(map["Authorization" := scheme + " " + token]).None?
  {
    SplitSchemeAndToken(scheme, token);
  }

  /** `extract_csrf_token` */
  function ExtractCsrfToken(request: Request, names: Names): Option<string> {
    Get(request.headers, names.csrfHeader)
  }

  /** `extract_access_token`: the cookie, else the header, else the `_token`
      query argument. */
  function ExtractAccessToken(request: Request, names: Names): (r: Option<string>)
    ensures Truthy(Cookie(request.cookies, names.accessToken)) ==> r == Cookie(request.cookies, names.accessToken)
  {
    Or(Or(Cookie(request.cookies, names.accessToken), TryExtractFromHeader(request.headers)), Get(request.args, "_token"))
  }

  /** `extract_webapp_passport`: the app's passport cookie, else the header,
      else the `web_app_access_token` query argument. */
  function ExtractWebappPassport(appCode: string, request: Request, names: Names): (r: Option<string>)
    ensures Truthy(Cookie(request.cookies, names.passport + "-" + appCode)) ==>
              r == Cookie(request.cookies, names.passport + "-" + appCode)
  {
    Or(Or(Cookie(request.cookies, names.passport + "-" + appCode), TryExtractFromHeader(request.headers)),
       Get(request.args, "web_app_access_token"))
  }

  /** A three-way `or` takes the first present source; only when none is
      present does the last one come through, even when it is empty. */
  lemma OrChain(a: Option<string>, b: Option<string>, c: Option<string>)
    ensures Truthy(Or(Or(a, b), c)) <==> Truthy(a) || Truthy(b) || Truthy(c)
    ensures Truthy(a) ==> Or(Or(a, b), c) == a
    ensures !Truthy(a) && Truthy(b) ==> Or(Or(a, b), c) == b
    ensures !Truthy(a) && !Truthy(b) ==> Or(Or(a, b), c) == c
  {
  }

  /** Access-token precedence: cookie, then header, then query; an empty
      value counts as absent. */
  lemma AccessTokenPrecedence(request: Request, names: Names)
    ensures var cookie, header, query :=
              Cookie(request.cookies, names.accessToken), TryExtractFromHeader(request.headers), Get(request.args, "_token");
            var r := ExtractAccessToken(request, names);
            (Truthy(r) <==> Truthy(cookie) || Truthy(header) || Truthy(query)) &&
            (!Truthy(cookie) && Truthy(header) ==> r == header) &&
            (!Truthy(cookie) && !Truthy(header) ==> r == query)
  {
    OrChain(Cookie(request.cookies, names.accessToken), TryExtractFromHeader(request.headers), Get(request.args, "_token"));
  }

  /** Passport precedence: the app's cookie, then header, then query. */
  lemma PassportPrecedence(appCode: string, request: Request, names: Names)
    ensures var cookie, header, query :=
              Cookie(request.cookies, names.passport + "-" + appCode), TryExtractFromHeader(request.headers),
              Get(request.args, "web_app_access_token");
            var r := ExtractWebappPassport(appCode, request, names);
            (Truthy(r) <==> Truthy(cookie) || Truthy(header) || Truthy(query)) &&
            (!Truthy(cookie) && Truthy(header) ==> r == header) &&
            (!Truthy(cookie) && !Truthy(header) ==> r == query)
  {
    OrChain(Cookie(request.cookies, names.passport + "-" + appCode), TryExtractFromHeader(request.headers),
            Get(request.args, "web_app_access_token"));
  }

  // ---------------------------------------------------------------------------
  // The CSRF check
  // ---------------------------------------------------------------------------

  /** What `PassportService.verify` does with a token: it raises, or it
      returns claims in which `exp` may be missing. */
  datatype Verified = VerifyRaises | Claims(exp: Option<int>)

  /** `check_csrf_token`; `now` is `int(datetime.now().timestamp())`. */
  function CheckCsrfToken(request: Request, names: Names, verify: string -> Verified, now: int): (r: Result<()>)
    ensures r.Err? ==> r.error == Unauthorized("CSRF token is missing.")
  {
    var csrfToken := ExtractCsrfToken(request, names);
    if !Truthy(csrfToken) then Err(Unauthorized("CSRF token is missing."))
    else
      var verified := verify(csrfToken.value);
      if verified.VerifyRaises? then Err(Unauthorized("CSRF token is missing."))
      else if verified.exp.None? || verified.exp.value == 0 then Err(Unauthorized("CSRF token is missing."))
      else if verified.exp.value < now then Err(Unauthorized("CSRF token is missing."))
      else Ok(())
  }

  /** The check passes exactly for a present token whose verified claims carry
      a non-zero expiry that is not yet in the past; expiring this very second
      still passes. */
  lemma CsrfAccepted(request: Request, names: Names, verify: string -> Verified, now: int)
    ensures CheckCsrfToken(request, names, verify, now).Ok? <==>
              var t := ExtractCsrfToken(request, names);
              Truthy(t) && verify(t.value).Claims? && verify(t.value).exp.Some? &&
              verify(t.value).exp.value != 0 && verify(t.value).exp.value >= now
  {
  }

  /** The boundary of the expiry comparison: a token expiring now passes, one
      that expired a second ago fails. */
  lemma CsrfExpiryBoundary(request: Request, names: Names, verify: string -> Verified, now: int)
    requires Truthy(ExtractCsrfToken(request, names))
    requires now != 0 && verify(ExtractCsrfToken(request, names).value) == Claims(Some(now))
    ensures CheckCsrfToken(request, names, verify, now).Ok?
    ensures now + 1 != 0 ==> CheckCsrfToken(request, names, verify, now + 1).Err?
  {
  }

  // ---------------------------------------------------------------------------
  // Setting and clearing cookies
  // ---------------------------------------------------------------------------

  /** One `response.set_cookie(...)` call. `expires` is `Some(0)` for a
      clearing cookie; `maxAge` is given when a token is set. */
  datatype SetCookie = SetCookie(name: string, value: string, httpOnly: bool, secure: bool, sameSite: string,
                                 maxAge: Option<int>, expires: Option<int>, path: string)

  /** The cookies a response will send, in the order they were set. */
  class Response {
    var cookies: seq<SetCookie>

    constructor ()
      ensures cookies == []
    {
      cookies := [];
    }

    /** `response.set_cookie(...)` */
    method Set(c: SetCookie)
      modifies this
      ensures cookies == old(cookies) + [c]
    {
      cookies := cookies + [c];
    }
  }

  /** The cookie `set_passport_to_cookie` sets for an app. */
  function PassportCookie(config: Config, names: Names, appCode: string, token: string): (c: SetCookie)
    ensures c.name == names.passport + "-" + appCode && c.value == token && c.httpOnly && c.path == "/"
    ensures c.sameSite == "None" <==> IsSecure(config)
    ensures c.sameSite == "None" || c.sameSite == "Lax"
    ensures c.secure == IsSecure(config)
  {
    var sameSite := if IsSecure(config) then "None" else "Lax";
    SetCookie(names.passport + "-" + appCode, token, true, IsSecure(config), sameSite,
              Some(60 * config.accessTokenExpireMinutes), None, "/")
  }

  /** Browsers drop a `SameSite=None` cookie that is not `Secure`: the passport
      cookie never is one. */
  lemma PassportCookieAccepted(config: Config, names: Names, appCode: string, token: string)
    ensures PassportCookie(config, names, appCode, token).sameSite == "None" ==>
              PassportCookie(config, names, appCode, token).secure
  {
  }

  /** `set_passport_to_cookie` */
  method SetPassportToCookie(config: Config, names: Names, appCode: string, response: Response, token: string)
    modifies response
    ensures response.cookies == old(response.cookies) + [PassportCookie(config, names, appCode, token)]
  {
    var sameSite := "None";
    if !IsSecure(config) {
      sameSite := "Lax";
    }
    response.Set(SetCookie(names.passport + "-" + appCode, token, true, IsSecure(config), sameSite,
                           Some(60 * config.accessTokenExpireMinutes), None, "/"));
  }

  /** The cookie `_clear_cookie` sets: empty, expired, http-only. */
  function ClearingCookie(config: Config, name: string, sameSite: string): (c: SetCookie)
    ensures c.name == name && c.value == "" && c.expires == Some(0) && c.maxAge.None? && c.httpOnly
  {
    SetCookie(name, "", true, IsSecure(config), sameSite, None, Some(0), "/")
  }

  /** `_clear_cookie` */
  method ClearCookie(config: Config, response: Response, name: string, sameSite: string)
    modifies response
    ensures response.cookies == old(response.cookies) + [ClearingCookie(config, name, sameSite)]
  {
    response.Set(ClearingCookie(config, name, sameSite));
  }

  /** What `for name in request.cookies` walks: the request's cookies form a
      multi-valued dictionary, whose keys are each name once, in order of
      first appearance. */
  function CookieNames(cookies: seq<(string, string)>): (r: seq<string>)
    ensures forall i, j :: 0 <= i < j < |r| ==> r[i] != r[j]
    ensures forall n :: n in r <==> exists k :: 0 <= k < |cookies| && cookies[k].0 == n
  {
    if cookies == [] then []
    else
      var init := cookies[..|cookies| - 1];
      var name := cookies[|cookies| - 1].0;
      var rest := CookieNames(init);
      assert forall k :: 0 <= k < |init| ==> init[k] == cookies[k];
      if name in rest then rest else rest + [name]
  }

  /** A name the request sends twice is walked once, at its first place. */
  lemma CookieNamesOnce(name: string, v: string, w: string, other: string, x: string)
    requires other != name
    ensures CookieNames([(name, v), (other, x), (name, w)]) == [name, other]
  {
    var cs := [(name, v), (other, x), (name, w)];
    assert cs[..2][..1] == [(name, v)];
    assert cs[..2][..1][..0] == [];
    assert CookieNames(cs[..2][..1]) == [name];
    assert CookieNames(cs[..2]) == [name, other];
  }

  /** The clearing cookies for the names that start with `prefix`, in the
      order given. */
  function ClearedWithPrefix(config: Config, names: seq<string>, prefix: string, sameSite: string)
    : (r: seq<SetCookie>)
    ensures |r| <= |names|
  {
    if names == [] then []
    else
      var init := ClearedWithPrefix(config, names[..|names| - 1], prefix, sameSite);
      var name := names[|names| - 1];
      if StartsWith(name, prefix) then init + [ClearingCookie(config, name, sameSite)] else init
  }

  /** Exactly the request's cookie names with the prefix are cleared, each
      once, and nothing else is touched: every record clears one of them, each
      of them gets a record, and no two records clear the same name. */
  lemma {:induction false} ClearedWithPrefixExactly(config: Config, cookies: seq<(string, string)>, prefix: string,
                                                    sameSite: string)
    ensures var r := ClearedWithPrefix(config, CookieNames(cookies), prefix, sameSite);
            (forall c :: c in r ==>
               c == ClearingCookie(config, c.name, sameSite) && StartsWith(c.name, prefix) &&
               exists k :: 0 <= k < |cookies| && cookies[k].0 == c.name) &&
            (forall k :: 0 <= k < |cookies| && StartsWith(cookies[k].0, prefix) ==>
               ClearingCookie(config, cookies[k].0, sameSite) in r) &&
            (forall i, j :: 0 <= i < j < |r| ==> r[i].name != r[j].name)
  {
    var names := CookieNames(cookies);
    ClearedNames(config, names, prefix, sameSite);
  }

  lemma {:induction false} ClearedNames(config: Config, names: seq<string>, prefix: string, sameSite: string)
    requires forall i, j :: 0 <= i < j < |names| ==> names[i] != names[j]
    ensures var r := ClearedWithPrefix(config, names, prefix, sameSite);
            (forall c :: c in r ==> c == ClearingCookie(config, c.name, sameSite) && StartsWith(c.name, prefix) && c.name in names) &&
            (forall n :: n in names && StartsWith(n, prefix) ==> ClearingCookie(config, n, sameSite) in r) &&
            (forall i, j :: 0 <= i < j < |r| ==> r[i].name != r[j].name)
  {
    if names != [] {
      var init := names[..|names| - 1];
      assert names == init + [names[|names| - 1]];
      ClearedNames(config, init, prefix, sameSite);
    }
  }

  /** `_clear_cookie_begin_with`: one clearing cookie per request cookie name
      that has the prefix. */
  method ClearCookieBeginWith(config: Config, request: Request, response: Response, prefix: string, sameSite: string)
    modifies response
    ensures response.cookies ==
            old(response.cookies) + ClearedWithPrefix(config, CookieNames(request.cookies), prefix, sameSite)
  {
    var names := CookieNames(request.cookies);
    var i := 0;
    while i < |names|
      invariant 0 <= i <= |names|
      invariant response.cookies == old(response.cookies) + ClearedWithPrefix(config, names[..i], prefix, sameSite)
    {
      assert names[..i + 1][..i] == names[..i];
      var cookieName := names[i];
      if StartsWith(cookieName, prefix) {
        ClearCookie(config, response, cookieName, sameSite);
      }
      i := i + 1;
    }
    assert names[..i] == names;
  }

  /** `clear_passport_from_cookie`: without an app code every passport
      cookie of the request is cleared, otherwise exactly the app's one. */
  method ClearPassportFromCookie(config: Config, names: Names, appCode: Option<string>, request: Request,
                                 response: Response, sameSite: string)
    modifies response
    ensures !Truthy(appCode) ==>
              response.cookies ==
              old(response.cookies) + ClearedWithPrefix(config, CookieNames(request.cookies), names.passport, sameSite)
    ensures Truthy(appCode) ==>
              response.cookies == old(response.cookies) + [ClearingCookie(config, names.passport + "-" + appCode.value, sameSite)]
  {
    if !Truthy(appCode) {
      ClearCookieBeginWith(config, request, response, names.passport, sameSite);
      return;
    }
    ClearCookie(config, response, names.passport + "-" + appCode.value, sameSite);
  }
}
