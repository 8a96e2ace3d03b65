/** The password gate of `api/login.js` and `vercel/api/login.ts`: a POST
    is accepted when no password is configured or the supplied one matches
    it exactly, and an accepted login sets the `auth` cookie, marked
    `Secure` behind an HTTPS proxy. The two variants differ only in how they
    read `X-Forwarded-Proto`. */
module Login {
  import opened JsText
  import opened JsObject
  import opened NodeHeaders

  /** The `password` field of the request body: a string, or anything else
      (missing, another type, or no body at all). */
  datatype PasswordField = StringPassword(s: string) | NoStringPassword

  datatype LoginRequest = LoginRequest(verb: string, password: PasswordField, headers: RequestHeaders)

  /** The JSON body `{ success, error? }`. */
  datatype LoginJson = LoginJson(success: bool, error: Option<string>)

  /** Status, the `Set-Cookie` header if any, and the JSON body; the
      `Content-Type: application/json` header is set on every answer. */
  datatype LoginResponse = LoginResponse(status: int, setCookie: Option<string>, body: LoginJson)

  const MaxAge: nat := 48 * 60 * 60
  const NotAllowed: LoginResponse := LoginResponse(405, None, LoginJson(false, Some("Method not allowed")))
  const Rejected: LoginResponse := LoginResponse(401, None, LoginJson(false, None))

  /** `providedPassword`: the body's password when it is a string, else `''`. */
  function Provided(p: PasswordField): string {
    match p
    case StringPassword(s) => s
    case NoStringPassword => ""
  }

  /** `process.env.PASSWORD || ''` and `process.env.PASSWORD ?? ''` agree on
      every value, so one configured secret serves both variants. */
  function Secret(env: Option<string>): string {
    env.GetOr("")
  }

  /** `!passwordEnv || providedPassword === passwordEnv`. */
  predicate Accepts(env: Option<string>, provided: string) {
    Secret(env) == "" || provided == Secret(env)
  }

  /** The cookie segments before the optional `Secure`. */
  function BaseSegments(encoded: string): seq<string> {
    ["auth=" + encoded, "Max-Age=" + NatToDecimal(MaxAge), "Path=/", "SameSite=Lax", "HttpOnly"]
  }

  /** The `Set-Cookie` value: the segments joined by `; `, with `Secure`
      pushed last when the request came over HTTPS. */
  method BuildCookie(encoded: string, secure: bool) returns (cookie: string)
    ensures cookie == Join(BaseSegments(encoded) + (if secure then ["Secure"] else []), "; ")
  {
    var segments := BaseSegments(encoded);
    if secure {
      segments := segments + ["Secure"];
    } else {
      assert segments == segments + [];
    }
    cookie := Join(segments, "; ");
  }

  /** What both handlers answer, given whether the request counts as HTTPS
      and the Base64 encoder (section 4 of RFC 4648, applied to the UTF-8
      bytes of the secret). */
  function Outcome(req: LoginRequest, env: Option<string>, secure: bool, base64: string -> string): (r: LoginResponse)
    ensures r.status == 200 <==> req.verb == "POST" && Accepts(env, Provided(req.password))
    ensures r.setCookie.Some? <==> r.status == 200
    ensures r.body.success <==> r.status == 200
    ensures r.status in {200, 401, 405}
  {
    if req.verb != "POST" then NotAllowed
    else if Accepts(env, Provided(req.password)) then
      LoginResponse(200, Some(Join(BaseSegments(base64(Secret(env))) + (if secure then ["Secure"] else []), "; ")),
                    LoginJson(true, None))
    else Rejected
  }

  /** The decision: 405 for every method but POST; otherwise 200 with the
      cookie exactly when no secret is configured or the supplied password
      equals it, and 401 without a cookie otherwise. With a secret set, a
      missing or non-string password is refused. */
  lemma OutcomeDecision(req: LoginRequest, env: Option<string>, secure: bool, base64: string -> string)
    ensures var r := Outcome(req, env, secure, base64);
            && (req.verb != "POST" <==> r == NotAllowed)
            && (r.status == 200 <==> req.verb == "POST" && (Secret(env) == "" || Provided(req.password) == Secret(env)))
            && (r.setCookie.Some? <==> r.status == 200)
            && (r.status == 200 || r == NotAllowed || r == Rejected)
            && (req.verb == "POST" && Secret(env) != "" && req.password == NoStringPassword ==> r == Rejected)
  {
  }

  lemma MaxAgeDigits()
    ensures NatToDecimal(MaxAge) == "172800"
  {
    NatToDecimalStep(1, 7, "1");
    NatToDecimalStep(17, 2, "1" + "7");
    NatToDecimalStep(172, 8, "1" + "7" + "2");
    NatToDecimalStep(1728, 0, "1" + "7" + "2" + "8");
    NatToDecimalStep(17280, 0, "1" + "7" + "2" + "8" + "0");
    assert "1" + "7" + "2" + "8" + "0" + "0" == "172800";
  }

  /** The cookie text, segment by segment: `auth=<encoded secret>; Max-Age=172800;
      Path=/; SameSite=Lax; HttpOnly`, then `; Secure` exactly when the request
      counts as HTTPS. */
  lemma CookieText(encoded: string, secure: bool)
    ensures Join(BaseSegments(encoded) + (if secure then ["Secure"] else []), "; ")
            == "auth=" + encoded + "; " + "Max-Age=172800" + "; " + "Path=/" + "; " + "SameSite=Lax" + "; " + "HttpOnly"
               + (if secure then "; " + "Secure" else "")
  {
    CookieTextNested(encoded, secure);
    Flatten("auth=" + encoded, "Max-Age=172800", "Path=/", "SameSite=Lax", "HttpOnly",
            if secure then "; " + "Secure" else "", "; ");
  }

  /** Dropping the nesting of a right-nested join. */
  lemma Flatten(a: string, b: string, c: string, d: string, f: string, e: string, sep: string)
    ensures a + sep + (b + sep + (c + sep + (d + sep + (f + e))))
            == a + sep + b + sep + c + sep + d + sep + f + e
  {
  }

  /** The cookie text as the join builds it, one separator at a time. */
  lemma CookieTextNested(encoded: string, secure: bool)
    ensures Join(BaseSegments(encoded) + (if secure then ["Secure"] else []), "; ")
            == "auth=" + encoded + "; " + ("Max-Age=172800" + "; " + ("Path=/" + "; " + ("SameSite=Lax" + "; "
               + ("HttpOnly" + (if secure then "; " + "Secure" else "")))))
  {
    var tail: seq<string> := if secure then ["HttpOnly", "Secure"] else ["HttpOnly"];
    var s3 := ["SameSite=Lax"] + tail;
    var s2 := ["Path=/"] + s3;
    var s1 := ["Max-Age=172800"] + s2;
    CookieSegments(encoded, secure);
    TailJoin(secure);
    JoinCons("SameSite=Lax", tail, "; ");
    JoinCons("Path=/", s3, "; ");
    JoinCons("Max-Age=172800", s2, "; ");
    JoinCons("auth=" + encoded, s1, "; ");
  }

  /** The segment list spelled out, with the `Max-Age` digits. */
  lemma CookieSegments(encoded: string, secure: bool)
    ensures BaseSegments(encoded) + (if secure then ["Secure"] else [])
            == ["auth=" + encoded] + (["Max-Age=172800"] + (["Path=/"] + (["SameSite=Lax"]
               + (if secure then ["HttpOnly", "Secure"] else ["HttpOnly"]))))
  {
    MaxAgeDigits();
    assert BaseSegments(encoded)[1] == "Max-Age=172800";
  }

  /** `HttpOnly`, followed by `; Secure` on HTTPS. */
  lemma TailJoin(secure: bool)
    ensures Join(if secure then ["HttpOnly", "Secure"] else ["HttpOnly"], "; ")
            == "HttpOnly" + (if secure then "; " + "Secure" else "")
  {
    if secure {
      assert ["HttpOnly", "Secure"][1..] == ["Secure"];
    }
  }

  /** Joining a list with a first part puts the separator after it. */
  lemma JoinCons(x: string, rest: seq<string>, sep: string)
    requires rest != []
    ensures Join([x] + rest, sep) == x + sep + Join(rest, sep)
  {
    assert ([x] + rest)[1..] == rest;
  }

  /** The cookie starts with the fixed segments and ends with `; Secure`
      exactly when the request counts as HTTPS. */
  lemma CookieShape(encoded: string, secure: bool)
    ensures var c := Join(BaseSegments(encoded) + (if secure then ["Secure"] else []), "; ");
            && StartsWith(c, "auth=" + encoded + "; " + "Max-Age=172800" + "; " + "Path=/" + "; " + "SameSite=Lax" + "; " + "HttpOnly")
            && (EndsWith(c, "; " + "Secure") <==> secure)
  {
    CookieText(encoded, secure);
    var prefix := "auth=" + encoded + "; " + "Max-Age=172800" + "; " + "Path=/" + "; " + "SameSite=Lax" + "; " + "HttpOnly";
    var end := if secure then "; " + "Secure" else "";
    var c := prefix + end;
    assert c[..|prefix|] == prefix;
    if secure {
      assert c[|c| - 8..] == end;
    } else {
      assert c == prefix;
      var suffix := "; " + "Secure";
      assert suffix[0] == ';';
      assert prefix[|prefix| - 8] == 'H';
    }
  }

  /** `login.js` counts the request as HTTPS when the first
      `X-Forwarded-Proto` value is exactly `https`. */
  function SecureJs(h: RequestHeaders): (r: bool)
    ensures r ==> Get(h, "x-forwarded-proto").Some?
    ensures Get(h, "x-forwarded-proto") == Some(Single("https")) ==> r
    ensures Get(h, "x-forwarded-proto").Some? && Get(h, "x-forwarded-proto").value.Single?
            ==> (r <==> Get(h, "x-forwarded-proto").value.s == "https")
    ensures Get(h, "x-forwarded-proto").Some? && Get(h, "x-forwarded-proto").value.Multiple?
            ==> (r <==> |Get(h, "x-forwarded-proto").value.values| > 0
                        && Get(h, "x-forwarded-proto").value.values[0] == "https")
  {
    var v: Option<HeaderValue> := Get(h, "x-forwarded-proto");
    match v
    case Some(Single(s)) => s == "https"
    case Some(Multiple(vs)) => vs != [] && vs[0] == "https"
    case None => false
  }

  /** `login.ts` compares the raw header with `https`, which an array value
      never equals. */
  function SecureTs(h: RequestHeaders): (r: bool)
    ensures r ==> SecureJs(h)
    ensures r <==> SecureJs(h) && Get(h, "x-forwarded-proto").value.Single?
  {
    Get(h, "x-forwarded-proto") == Some(Single("https"))
  }

  /** `handler` of `api/login.js`. */
  method HandlerJs(req: LoginRequest, env: Option<string>, base64: string -> string) returns (resp: LoginResponse)
    ensures resp == Outcome(req, env, SecureJs(req.headers), base64)
  {
    if req.verb != "POST" {
      return NotAllowed;
    }
    var passwordEnv := Secret(env);
    var provided := Provided(req.password);
    if passwordEnv == "" || provided == passwordEnv {
      var cookie := BuildCookie(base64(passwordEnv), SecureJs(req.headers));
      return LoginResponse(200, Some(cookie), LoginJson(true, None));
    }
    return Rejected;
  }

  /** `handler` of `vercel/api/login.ts`. */
  method HandlerTs(req: LoginRequest, env: Option<string>, base64: string -> string) returns (resp: LoginResponse)
    ensures resp == Outcome(req, env, SecureTs(req.headers), base64)
  {
    if req.verb != "POST" {
      return NotAllowed;
    }
    var provided := Provided(req.password);
    if env.None? || env.value == "" || provided == env.value {
      var cookie := BuildCookie(base64(Secret(env)), SecureTs(req.headers));
      return LoginResponse(200, Some(cookie), LoginJson(true, None));
    }
    return Rejected;
  }

  /** The variants answer alike unless `X-Forwarded-Proto` arrives as an
      array; then `login.js` marks the cookie `Secure` on a leading `https`
      and `login.ts` never does. */
  lemma VariantsAgree(req: LoginRequest, env: Option<string>, base64: string -> string)
    ensures (Get(req.headers, "x-forwarded-proto").None? || Get(req.headers, "x-forwarded-proto").value.Single?)
            ==> Outcome(req, env, SecureJs(req.headers), base64) == Outcome(req, env, SecureTs(req.headers), base64)
    ensures Get(req.headers, "x-forwarded-proto") == Some(Multiple(["https"])) ==> SecureJs(req.headers) && !SecureTs(req.headers)
  {
  }
}
