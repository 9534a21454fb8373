/**
 * Request authentication of the web server (web/auth.py): an API key, in
 * the X-API-Key header or as a bearer token, or HTTP basic credentials
 * checked against a password hash. The hash check is abstract: `checkpw`
 * returns the verdict of bcrypt, or None when it raises.
 */
module Auth {
  import opened Wrappers
  import opened Text

  datatype AuthConfig = AuthConfig(enabled: bool, apiKey: string, username: string, passwordHash: string)

  /** The parsed `Authorization: Basic` credentials. */
  datatype Credentials = Credentials(username: string, password: string)

  datatype Request = Request(headers: seq<(string, string)>, authorization: Option<Credentials>)

  /** What the before-request handler does: none installed, let through, or the 401 reply with its challenge. */
  datatype Gate = NoCheck | Allowed | Unauthorized(code: int, body: string, challenge: string)

  /** `req.headers.get(name)`: header names match case-insensitively; the first match wins. */
  function Header(headers: seq<(string, string)>, name: string): (r: Option<string>)
    ensures r.Some? ==> exists i :: 0 <= i < |headers| && Lower(headers[i].0) == Lower(name) && headers[i].1 == r.value
    ensures r.None? ==> forall i :: 0 <= i < |headers| ==> Lower(headers[i].0) != Lower(name)
  {
    if headers == [] then None
    else if Lower(headers[0].0) == Lower(name) then Some(headers[0].1)
    else
      var r := Header(headers[1..], name);
      assert forall i :: 0 <= i < |headers[1..]| ==> headers[1..][i] == headers[i + 1];
      r
  }

  /** `s.split(" ", 1)[1]`: what follows the first space. */
  function AfterFirstSpace(s: string): string
    requires Contains(s, " ")
  {
    var i := Find(s, " ");
    s[i + 1..]
  }

  /** `_check_api_key` */
  predicate CheckApiKey(req: Request, apiKey: string) {
    var headerKey := Header(req.headers, "X-API-Key");
    if headerKey.Some? && headerKey.value != [] && headerKey.value == apiKey then true
    else
      var authHeader := if Header(req.headers, "Authorization").Some? then Header(req.headers, "Authorization").value else "";
      if IsBearer(authHeader) then
        BearerSpace(authHeader);
        Strip(AfterFirstSpace(authHeader)) == apiKey
      else false
  }

  /** `auth_header.lower().startswith("bearer ")` */
  predicate IsBearer(h: string) {
    StartsWith(Lower(h), "bearer ")
  }

  lemma LowerCharSpace(c: char)
    requires LowerChar(c) == ' '
    ensures c == ' '
  {
    assert LowerChar(c) as int == (if 'A' <= c <= 'Z' then c as int + 32 else c as int);
  }

  lemma BearerSpace(h: string)
    requires IsBearer(h)
    ensures OccursAt(h, " ", 6)
  {
    assert Lower(h)[..7] == "bearer ";
    assert Lower(h)[6] == ' ';
    LowerCharSpace(h[6]);
    assert h[6..7] == [h[6]];
  }

  /** `_verify_password`: an exception counts as a mismatch. */
  predicate VerifyPassword(password: string, hash: string, checkpw: (string, string) -> Option<bool>) {
    match checkpw(password, hash)
    case None => false
    case Some(ok) => ok
  }

  /** `_check_basic_auth`: credentials present, non-empty, for the configured user, and matching the hash. */
  predicate CheckBasicAuth(req: Request, config: AuthConfig, checkpw: (string, string) -> Option<bool>) {
    match req.authorization
    case None => false
    case Some(c) =>
      c.username != [] && c.password != [] && c.username == config.username
      && VerifyPassword(c.password, config.passwordHash, checkpw)
  }

  /** `_is_authorized` */
  predicate IsAuthorized(req: Request, config: AuthConfig, checkpw: (string, string) -> Option<bool>) {
    (config.apiKey != [] && CheckApiKey(req, config.apiKey))
    || (config.passwordHash != [] && CheckBasicAuth(req, config, checkpw))
  }

  /** `init_auth` and the handler it installs. */
  function BeforeRequest(config: AuthConfig, req: Request, checkpw: (string, string) -> Option<bool>): (g: Gate)
    ensures !config.enabled <==> g == NoCheck
    ensures config.enabled ==> (g == Allowed <==> IsAuthorized(req, config, checkpw))
    ensures g.Unauthorized? ==> g.code == 401 && g.body == "Unauthorized"
  {
    if !config.enabled then NoCheck
    else if IsAuthorized(req, config, checkpw) then Allowed
    else Unauthorized(401, "Unauthorized", "Basic realm=\"Local Ollama Agents\"")
  }

  /** An X-API-Key header, under any capitalisation of its name, equal to the key authorises. */
  lemma ApiKeyHeaderAuthorizes(name: string, key: string, rest: seq<(string, string)>, config: AuthConfig,
                               auth: Option<Credentials>, checkpw: (string, string) -> Option<bool>)
    requires Lower(name) == Lower("X-API-Key") && key != [] && config.apiKey == key
    ensures IsAuthorized(Request([(name, key)] + rest, auth), config, checkpw)
  {
    var req := Request([(name, key)] + rest, auth);
    assert Header(req.headers, "X-API-Key") == Some(key);
  }

  /**
   * "bearer " is matched whatever its case, and the token after it, stripped,
   * must equal the key.
   */
  lemma BearerToken(prefix: string, token: string, key: string)
    requires |prefix| == 7 && Lower(prefix) == "bearer "
    ensures CheckApiKey(Request([("Authorization", prefix + token)], None), key) <==> Strip(token) == key
  {
    var h := prefix + token;
    OnlyAuthorization(h);
    BearerFirstSpace(prefix, token);
  }

  lemma OnlyAuthorization(h: string)
    ensures Header([("Authorization", h)], "X-API-Key") == None
    ensures Header([("Authorization", h)], "Authorization") == Some(h)
  {
    assert Lower("X-API-Key") != Lower("Authorization") by {
      assert Lower("X-API-Key")[0] == 'x' && Lower("Authorization")[0] == 'a';
    }
  }

  lemma BearerFirstSpace(prefix: string, token: string)
    requires |prefix| == 7 && Lower(prefix) == "bearer "
    ensures IsBearer(prefix + token) && Contains(prefix + token, " ") && AfterFirstSpace(prefix + token) == token
  {
    var h := prefix + token;
    assert Lower(h)[..7] == Lower(prefix);
    NoSpaceInBearer(h);
    BearerSpace(h);
    FirstSpaceAt6(h);
    assert h[7..] == token;
  }

  lemma NoSpaceInBearer(h: string)
    requires IsBearer(h)
    ensures forall i :: 0 <= i < 6 ==> h[i] != ' '
  {
    var l := Lower(h)[..7];
    assert l == "bearer ";
    assert l[0] == 'b' && l[1] == 'e' && l[2] == 'a' && l[3] == 'r' && l[4] == 'e' && l[5] == 'r';
    forall i | 0 <= i < 6
      ensures h[i] != ' '
    {
      assert LowerChar(h[i]) == l[i];
    }
  }

  lemma FirstSpaceAt6(h: string)
    requires |h| >= 7 && h[6] == ' ' && forall i :: 0 <= i < 6 ==> h[i] != ' '
    ensures Find(h, " ") == 6
  {
    assert OccursAt(h, " ", 6) by {
      assert h[6..7] == [h[6]];
    }
  }

  /** Without an X-API-Key or Authorization header the key check fails. */
  lemma NoKeyHeaders(auth: Option<Credentials>, key: string)
    ensures !CheckApiKey(Request([], auth), key)
  {
  }

  /** A wrong user name is refused before the password is looked at, and a raising hash check refuses. */
  lemma BasicAuthRefusals(req: Request, config: AuthConfig, checkpw: (string, string) -> Option<bool>)
    ensures req.authorization.Some? && req.authorization.value.username != config.username ==>
      !CheckBasicAuth(req, config, checkpw)
    ensures req.authorization.Some? && checkpw(req.authorization.value.password, config.passwordHash).None? ==>
      !CheckBasicAuth(req, config, checkpw)
    ensures req.authorization.None? ==> !CheckBasicAuth(req, config, checkpw)
  {
  }

  /** With neither a key nor a password hash configured, nothing is authorised. */
  lemma NothingConfigured(req: Request, config: AuthConfig, checkpw: (string, string) -> Option<bool>)
    requires config.enabled && config.apiKey == [] && config.passwordHash == []
    ensures BeforeRequest(config, req, checkpw) == Unauthorized(401, "Unauthorized", "Basic realm=\"Local Ollama Agents\"")
  {
  }
}
