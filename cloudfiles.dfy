/** The CloudFiles storage driver: its response rules, the connection that
    authenticates lazily on first use of `host` and prefixes every request
    with the discovered storage path, and the driver operations that map
    HTTP status codes to results and typed errors. A response is a status,
    a header dictionary and a body whose JSON decoding, when it has one,
    is given as a value. */
module CloudFiles {
  import opened Wrappers
  import opened Strings
  import opened PyValues
  import opened HttpStatus
  import opened Utils
  import opened StorageBase

  const AUTH_HOST_US: string := "auth.api.rackspacecloud.com"
  const AUTH_HOST_UK: string := "lon.auth.api.rackspacecloud.com"
  const API_VERSION: string := "v1.0"

  // ---------------------------------------------------------------------
  // CloudFilesResponse

  /** `success()`: the status is in the 2xx range. */
  predicate IsSuccess(status: int) {
    200 <= status <= 299
  }

  /** `parse_body`: an empty body is `None`; otherwise the decoded JSON, or
      a malformed-response error when the body does not decode (`decoded`
      is the decoding of the body, `None` when it is not JSON). */
  function ParseBody(body: string, decoded: Option<Value>): (r: Outcome<Value>)
    ensures body == "" ==> r == Success(Null)
    ensures body != "" ==> (r.Success? <==> decoded.Some?)
    ensures body != "" && decoded.Some? ==> r.value == decoded.value
    ensures r.Failure? ==> r.error == MalformedResponseError
  {
    if body == "" then Success(Null)
    else if decoded.None? then Failure(MalformedResponseError)
    else Success(decoded.value)
  }

  // ---------------------------------------------------------------------
  // urlparse

  /** The six parts `urlparse` splits a URL into. */
  datatype UrlParts = UrlParts(scheme: string, netloc: string, path: string, params: string,
                               query: string, fragment: string)

  predicate IsSchemeChar(c: char) {
    ('a' <= c <= 'z') || ('A' <= c <= 'Z') || ('0' <= c <= '9') || c == '+' || c == '-' || c == '.'
  }

  /** `s.find(c)` from position `from` on, or -1. */
  function FindFrom(s: string, c: char, from: nat): (i: int)
    ensures i == -1 || (from <= i < |s| && s[i] == c)
    ensures forall j :: from <= j < |s| && (i == -1 || j < i) ==> s[j] != c
    decreases |s| - from
  {
    if from >= |s| then -1 else if s[from] == c then from else FindFrom(s, c, from + 1)
  }

  /** `s.rfind(c)`, or -1. */
  function RFind(s: string, c: char): (i: int)
    ensures i == -1 || (0 <= i < |s| && s[i] == c)
    ensures forall j :: 0 <= j < |s| && j > i ==> s[j] != c
  {
    if s == [] then -1 else if s[|s| - 1] == c then |s| - 1 else RFind(s[..|s| - 1], c)
  }

  /** The position of the first character in `stops`, or `|s|`. */
  function FirstOf(s: string, stops: set<char>): (i: nat)
    ensures i <= |s|
    ensures forall j :: 0 <= j < i ==> s[j] !in stops
    ensures i < |s| ==> s[i] in stops
  {
    if s == [] || s[0] in stops then 0 else 1 + FirstOf(s[1..], stops)
  }

  /** `s.split(c, 1)` when `c in s`, as a pair; `(s, "")` otherwise. */
  function SplitOnce(s: string, c: char): (r: (string, string))
    ensures c !in r.0
    ensures c in s ==> s == r.0 + [c] + r.1
    ensures c !in s ==> r == (s, "")
  {
    var i := FindFrom(s, c, 0);
    if i < 0 then (s, "") else (s[..i], s[i + 1..])
  }

  /** `_splitparams`: parameters start at the first `;` of the last path
      segment. */
  function SplitParams(url: string): (r: (string, string))
    ensures r.0 <= url
  {
    var i := if '/' in url then FindFrom(url, ';', RFind(url, '/') as nat) else FindFrom(url, ';', 0);
    if i < 0 then (url, "") else (url[..i], url[i + 1..])
  }

  /** The scheme: what precedes the first `:` when it is non-empty and made
      of scheme characters, lower-cased; the rest follows the colon. */
  function SplitScheme(url: string): (string, string) {
    var colon := FindFrom(url, ':', 0);
    if colon > 0 && forall j :: 0 <= j < colon ==> IsSchemeChar(url[j]) then (Lower(url[..colon]), url[colon + 1..])
    else ("", url)
  }

  /** `_splitnetloc`: after `//`, up to the next `/`, `?` or `#`. */
  function SplitNetloc(rest: string): (r: (string, string))
    ensures '/' !in r.0 && '?' !in r.0 && '#' !in r.0
  {
    if StartsWith(rest, "//") then
      var d := FirstOf(rest[2..], {'/', '?', '#'});
      (rest[2..][..d], rest[2..][d..])
    else ("", rest)
  }

  /** `urlparse(url)`: the scheme, the network location, then the fragment,
      the query and the parameters, each split off at its delimiter. */
  function ParseUrl(url: string): (r: UrlParts)
    ensures '/' !in r.netloc && '?' !in r.netloc && '#' !in r.netloc
    ensures '?' !in r.path && '#' !in r.path && '?' !in r.params && '#' !in r.params
    ensures '#' !in r.query
  {
    var (scheme, rest) := SplitScheme(url);
    var (netloc, rest2) := SplitNetloc(rest);
    var (rest3, fragment) := SplitOnce(rest2, '#');
    var (rest4, query) := SplitOnce(rest3, '?');
    var (path, params) := if ';' in rest4 then SplitParams(rest4) else (rest4, "");
    UrlParts(scheme, netloc, path, params, query, fragment)
  }

  predicate IsLowerAlpha(s: string) { forall i :: 0 <= i < |s| ==> 'a' <= s[i] <= 'z' }

  lemma FindFromFirst(s: string, c: char, i: nat)
    requires i < |s| && s[i] == c && forall j :: 0 <= j < i ==> s[j] != c
    ensures FindFrom(s, c, 0) == i
  {
    var k := FindFrom(s, c, 0);
    assert k != -1 ==> k >= i;
  }

  lemma SchemeOfUrl(scheme: string, after: string)
    requires scheme != [] && IsLowerAlpha(scheme)
    ensures SplitScheme(scheme + ":" + after) == (scheme, after)
  {
    var url := scheme + ":" + after;
    assert url[|scheme|] == ':';
    assert forall j :: 0 <= j < |scheme| ==> url[j] == scheme[j];
    assert forall j :: 0 <= j < |scheme| ==> IsSchemeChar(url[j]);
    FindFromFirst(url, ':', |scheme|);
    assert Lower(scheme) == scheme;
    assert url[..|scheme|] == scheme && url[|scheme| + 1..] == after;
  }

  lemma NetlocOfUrl(server: string, path: string)
    requires '/' !in server && '?' !in server && '#' !in server
    requires path == [] || path[0] == '/'
    ensures SplitNetloc("//" + server + path) == (server, path)
  {
    var rest := "//" + server + path;
    assert rest[..2] == "//";
    var tail := rest[2..];
    assert tail == server + path;
    assert forall j :: 0 <= j < |server| ==> tail[j] == server[j];
    var d := FirstOf(tail, {'/', '?', '#'});
    assert d <= |server| ==> d == |server|;
    assert tail[..|server|] == server && tail[|server|..] == path;
  }

  lemma SplitOnceAbsent(s: string, c: char)
    requires c !in s
    ensures SplitOnce(s, c) == (s, "")
  {
    assert FindFrom(s, c, 0) == -1;
  }

  /** A storage URL of the usual form `scheme://server/path` splits into
      that scheme, server and path, with no parameters, query or fragment. */
  lemma ParseStorageUrl(scheme: string, server: string, path: string)
    requires scheme != [] && IsLowerAlpha(scheme)
    requires '/' !in server && '?' !in server && '#' !in server
    requires path == [] || path[0] == '/'
    requires '?' !in path && '#' !in path && ';' !in path
    ensures ParseUrl(scheme + "://" + server + path) == UrlParts(scheme, server, path, "", "", "")
  {
    assert scheme + "://" + server + path == scheme + ":" + ("//" + server + path);
    SchemeOfUrl(scheme, "//" + server + path);
    NetlocOfUrl(server, path);
    SplitOnceAbsent(path, '#');
    SplitOnceAbsent(path, '?');
  }

  // ---------------------------------------------------------------------
  // CloudFilesConnection

  /** What the authentication server answers: a status and the response
      headers, keyed by lower-cased names. */
  datatype AuthReply = AuthReply(status: int, headers: map<string, string>)

  /** The credential exchange the connection sends to the auth host. */
  datatype AuthRequest = AuthRequest(host: string, secure: bool, verb: string, url: string,
                                     headers: map<string, string>)

  /** The connection's cached session. */
  datatype Session = Session(storageUrl: Option<string>, cdnManagementUrl: Option<string>,
                             authToken: Option<string>, requestPath: Option<string>, host: Option<string>)

  /** `not self.__host` fails: a server has been discovered and it is not
      the empty string. */
  predicate Resolved(s: Session) {
    s.host.Some? && s.host.value != ""
  }

  /** The bootstrap, from the auth reply: the session afterwards and what
      `host` returns or raises. The fields are assigned in the order the
      code assigns them, so a failure part-way keeps the fields set before
      it; the discovered server is stored last. */
  function Bootstrap(s: Session, secure: bool, reply: AuthReply): (r: (Session, Outcome<string>))
    ensures r.1.Failure? ==> r.1.error == InvalidCredsError && r.0.host == s.host
    ensures r.1.Success? ==>
      r.0.host == Some(r.1.value) && "x-auth-token" in reply.headers &&
      r.0.authToken == Some(reply.headers["x-auth-token"])
  {
    var h := reply.headers;
    if reply.status != NO_CONTENT then (s, Failure(InvalidCredsError))
    else if "x-storage-url" !in h then (s, Failure(InvalidCredsError))
    else
      var s1 := s.(storageUrl := Some(h["x-storage-url"]));
      if "x-cdn-management-url" !in h then (s1, Failure(InvalidCredsError))
      else
        var s2 := s1.(cdnManagementUrl := Some(h["x-cdn-management-url"]));
        if "x-auth-token" !in h then (s2, Failure(InvalidCredsError))
        else
          var s3 := s2.(authToken := Some(h["x-auth-token"]));
          var parts := ParseUrl(h["x-storage-url"]);
          var s4 := s3.(requestPath := Some(parts.path));
          if parts.scheme == "https" && !secure then (s4, Failure(InvalidCredsError))
          else (s4.(host := Some(parts.netloc)), Success(parts.netloc))
  }

  /** All headers the bootstrap needs. */
  predicate HasAuthHeaders(reply: AuthReply) {
    "x-storage-url" in reply.headers && "x-cdn-management-url" in reply.headers && "x-auth-token" in reply.headers
  }

  /** The bootstrap succeeds exactly on a 204 carrying the three headers
      (unless an https storage URL meets an insecure connection); it then
      caches the three values and the URL's path and returns its server. */
  lemma BootstrapSucceeds(s: Session, secure: bool, reply: AuthReply)
    ensures Bootstrap(s, secure, reply).1.Success? <==>
      reply.status == NO_CONTENT && HasAuthHeaders(reply)
      && !(ParseUrl(reply.headers["x-storage-url"]).scheme == "https" && !secure)
    ensures Bootstrap(s, secure, reply).1.Success? ==>
      var url := ParseUrl(reply.headers["x-storage-url"]);
      Bootstrap(s, secure, reply) ==
        (Session(Some(reply.headers["x-storage-url"]), Some(reply.headers["x-cdn-management-url"]),
                 Some(reply.headers["x-auth-token"]), Some(url.path), Some(url.netloc)),
         Success(url.netloc))
  {
  }

  /** Both failure triggers raise InvalidCredsError and leave the cached
      server as it was, so a later access bootstraps again; a wrong status
      changes nothing at all. */
  lemma BootstrapFailureKeepsHost(s: Session, secure: bool, reply: AuthReply)
    ensures Bootstrap(s, secure, reply).1.Failure? ==>
      Bootstrap(s, secure, reply).1.error == InvalidCredsError && Bootstrap(s, secure, reply).0.host == s.host
    ensures reply.status != NO_CONTENT ==> Bootstrap(s, secure, reply) == (s, Failure(InvalidCredsError))
    ensures reply.status == NO_CONTENT && !HasAuthHeaders(reply) ==>
      Bootstrap(s, secure, reply).1 == Failure(InvalidCredsError) &&
      Bootstrap(s, secure, reply).0.requestPath == s.requestPath
  {
  }

  /** After a successful bootstrap naming a server, the session is
      resolved: further accesses reuse it. */
  lemma BootstrapResolves(s: Session, secure: bool, reply: AuthReply)
    requires Bootstrap(s, secure, reply).1.Success? && Bootstrap(s, secure, reply).1.value != ""
    ensures Resolved(Bootstrap(s, secure, reply).0)
  {
  }

  /** A 204 reply carrying a storage URL of the form `scheme://server/path`
      (such as the one of the driver's tests) resolves the connection to
      that server and caches the path and the token. */
  lemma BootstrapWithStorageUrl(s: Session, secure: bool, reply: AuthReply,
                                scheme: string, server: string, path: string)
    requires reply.status == NO_CONTENT && HasAuthHeaders(reply)
    requires reply.headers["x-storage-url"] == scheme + "://" + server + path
    requires scheme != [] && IsLowerAlpha(scheme) && (scheme != "https" || secure)
    requires '/' !in server && '?' !in server && '#' !in server
    requires path == [] || path[0] == '/'
    requires '?' !in path && '#' !in path && ';' !in path
    ensures Bootstrap(s, secure, reply).1 == Success(server)
    ensures Bootstrap(s, secure, reply).0.host == Some(server)
    ensures Bootstrap(s, secure, reply).0.requestPath == Some(path)
    ensures Bootstrap(s, secure, reply).0.authToken == Some(reply.headers["x-auth-token"])
  {
    ParseStorageUrl(scheme, server, path);
  }

  /** The parameters of `CloudFilesConnection.__init__` after `self`; the
      first two have no default. */
  const CONNECTION_PARAMS: seq<string> := ["user_id", "key", "secure"]

  /** How the connection binds the list `StorageDriver.__init__` passes it
      by position, when the driver is built with these parameters. */
  function ConnectionBinding(key: string, secret: Option<string>, secure: bool, host: Option<string>,
                             port: Option<int>): Outcome<seq<(string, ConnArg)>>
  {
    BindPositional(CONNECTION_PARAMS, 2, ConnectionArgs(key, secret, secure, host, port))
  }

  /** As written, the connection binds the driver's arguments by place. The
      driver's key is always the user id. A secret, with no host or port,
      binds as the key and the secure flag as `secure`, as intended. Without
      a secret the secure flag binds as the key, and a host or a port alone
      as `secure`. A secret together with a host or a port, or a host
      together with a port, is one argument too many. */
  lemma PositionalConnectionBinding(key: string, secret: Option<string>, secure: bool, host: Option<string>,
                                    port: Option<int>)
    ensures ConnectionBinding(key, secret, secure, host, port).Success? <==>
      (if secret.Some? then 1 else 0) + (if host.Some? then 1 else 0) + (if port.Some? then 1 else 0) <= 1
    ensures ConnectionBinding(key, secret, secure, host, port).Failure? ==>
      ConnectionBinding(key, secret, secure, host, port).error == TypeError
    ensures ConnectionBinding(key, secret, secure, host, port).Success? ==>
      ConnectionBinding(key, secret, secure, host, port).value[0] == ("user_id", KeyArg(key))
    ensures secret.Some? && host.None? && port.None? ==>
      ConnectionBinding(key, secret, secure, host, port) ==
        Success([("user_id", KeyArg(key)), ("key", SecretArg(secret.value)), ("secure", SecureArg(secure))])
    ensures secret.None? && (host.None? || port.None?) ==>
      ConnectionBinding(key, secret, secure, host, port).value[1] == ("key", SecureArg(secure))
    ensures secret.None? && host.Some? && port.None? ==>
      ConnectionBinding(key, secret, secure, host, port).value[2] == ("secure", HostArg(host.value))
    ensures secret.None? && host.None? && port.Some? ==>
      ConnectionBinding(key, secret, secure, host, port).value[2] == ("secure", PortArg(port.value))
  {
    ConnectionArgsPositions(key, secret, secure, host, port);
    if secret.Some? && host.None? && port.None? {
      var r := ConnectionBinding(key, secret, secure, host, port);
      assert r.value == [("user_id", KeyArg(key)), ("key", SecretArg(secret.value)), ("secure", SecureArg(secure))];
    }
  }

  /** Two drivers that show the binding going wrong: without a secret the
      secure flag becomes the key; with a secret, a port is one argument too
      many. */
  lemma ConnectionMisbindingExamples()
    ensures ConnectionBinding("user", None, true, None, None) ==
      Success([("user_id", KeyArg("user")), ("key", SecureArg(true))])
    ensures ConnectionBinding("user", Some("secret"), true, None, Some(443)) == Failure(TypeError)
  {
    PositionalConnectionBinding("user", None, true, None, None);
    assert ConnectionBinding("user", None, true, None, None).value == [("user_id", KeyArg("user")), ("key", SecureArg(true))];
    PositionalConnectionBinding("user", Some("secret"), true, None, Some(443));
  }

  /** What `request` hands on to the generic connection. */
  datatype PreparedRequest = PreparedRequest(action: string, params: map<string, Value>, data: string,
                                             headers: map<string, Value>, verb: string, raw: bool)

  const JSON_CONTENT_TYPE: string := "application/json; charset=UTF-8"

  class CloudFilesConnection {
    const userId: string
    const key: string
    const secure: bool
    const authHost: string
    const apiVersion: string
    var storageUrl: Option<string>
    var cdnManagementUrl: Option<string>
    var authToken: Option<string>
    var requestPath: Option<string>
    var resolvedHost: Option<string>
    /** Every credential exchange sent, in order. */
    var authRequests: seq<AuthRequest>

    /** `__init__`: nothing is cached yet. */
    constructor (userId: string, key: string, secure: bool, authHost: string)
      ensures this.userId == userId && this.key == key && this.secure == secure && this.authHost == authHost
      ensures apiVersion == API_VERSION
      ensures CurrentSession() == Session(None, None, None, None, None) && authRequests == []
    {
      this.userId := userId;
      this.key := key;
      this.secure := secure;
      this.authHost := authHost;
      apiVersion := API_VERSION;
      storageUrl := None;
      cdnManagementUrl := None;
      authToken := None;
      requestPath := None;
      resolvedHost := None;
      authRequests := [];
    }

    function CurrentSession(): Session
      reads this
    {
      Session(storageUrl, cdnManagementUrl, authToken, requestPath, resolvedHost)
    }

    /** The credential exchange: `GET /<version>` carrying the user and key
        in headers. */
    function AuthRequestFor(): (q: AuthRequest)
      ensures q.verb == "GET" && q.url == "/" + apiVersion && q.host == authHost
      ensures q.headers == map["X-Auth-User" := userId, "X-Auth-Key" := key]
    {
      AuthRequest(authHost, secure, "GET", "/" + apiVersion, map["X-Auth-User" := userId, "X-Auth-Key" := key])
    }

    /** The `host` property. While no server is cached it sends the
        credential exchange (`reply` is the auth server's answer) and runs
        the bootstrap; once one is cached it returns it and changes
        nothing. */
    method Host(reply: AuthReply) returns (r: Outcome<string>)
      modifies this
      ensures old(Resolved(CurrentSession())) ==>
        r == Success(old(resolvedHost.value)) && unchanged(this)
      ensures !old(Resolved(CurrentSession())) ==>
        authRequests == old(authRequests) + [AuthRequestFor()]
        && (CurrentSession(), r) == Bootstrap(old(CurrentSession()), secure, reply)
    {
      if resolvedHost.Some? && resolvedHost.value != "" {
        return Success(resolvedHost.value);
      }
      authRequests := authRequests + [AuthRequestFor()];
      if reply.status != NO_CONTENT {
        return Failure(InvalidCredsError);
      }
      var headers := reply.headers;
      if "x-storage-url" !in headers {
        return Failure(InvalidCredsError);
      }
      storageUrl := Some(headers["x-storage-url"]);
      if "x-cdn-management-url" !in headers {
        return Failure(InvalidCredsError);
      }
      cdnManagementUrl := Some(headers["x-cdn-management-url"]);
      if "x-auth-token" !in headers {
        return Failure(InvalidCredsError);
      }
      authToken := Some(headers["x-auth-token"]);
      var parts := ParseUrl(storageUrl.value);
      requestPath := Some(parts.path);
      if parts.scheme == "https" && !secure {
        return Failure(InvalidCredsError);
      }
      resolvedHost := Some(parts.netloc);
      return Success(parts.netloc);
    }

    /** `request`: once a storage path is known (and non-empty) it prefixes
        the action and `format=json` joins the parameters; a POST sends only
        the JSON content type as its headers. */
    method Request(action: string, params: map<string, Value>, data: string, headers: map<string, Value>,
                   verb: string, raw: bool) returns (req: PreparedRequest)
      ensures requestPath.Some? && requestPath.value != "" ==>
        req.action == requestPath.value + action && req.params == params["format" := Str("json")]
      ensures requestPath.None? || requestPath.value == "" ==> req.action == action && req.params == params
      ensures verb == "POST" ==> req.headers == map["Content-Type" := Str(JSON_CONTENT_TYPE)]
      ensures verb != "POST" ==> req.headers == headers
      ensures req.data == data && req.verb == verb && req.raw == raw
    {
      var sentAction := action;
      var sentParams := params;
      var sentHeaders := headers;
      if requestPath.Some? && requestPath.value != "" {
        sentAction := requestPath.value + action;
        sentParams := sentParams["format" := Str("json")];
      }
      if verb == "POST" {
        sentHeaders := map["Content-Type" := Str(JSON_CONTENT_TYPE)];
      }
      req := PreparedRequest(sentAction, sentParams, data, sentHeaders, verb, raw);
    }

    /** `add_default_headers`: the token (`None` before the bootstrap) and
        the JSON accept header are set; every other header is kept. */
    function AddDefaultHeaders(headers: map<string, Value>): (r: map<string, Value>)
      reads this
      ensures r.Keys == headers.Keys + {"X-Auth-Token", "Accept"}
      ensures r["X-Auth-Token"] == (if authToken.Some? then Str(authToken.value) else Null)
      ensures r["Accept"] == Str("application/json")
      ensures forall k :: k in headers && k != "X-Auth-Token" && k != "Accept" ==> r[k] == headers[k]
    {
      headers["X-Auth-Token" := if authToken.Some? then Str(authToken.value) else Null]["Accept" := Str("application/json")]
    }
  }

  // ---------------------------------------------------------------------
  // CloudFilesStorageDriver

  /** A response of the storage service; `decoded` is the JSON decoding of
      the body, `None` when it is not JSON. */
  datatype StorageResponse = StorageResponse(status: int, headers: map<string, Value>, body: string,
                                             decoded: Option<Value>)

  function UnexpectedStatus(status: int): Error {
    LibcloudError(Str("Unexpected status code: " + IntToString(status)))
  }

  /** `json.loads(response.body)`. */
  function LoadJson(reply: StorageResponse): (r: Outcome<Value>)
    ensures r.Success? <==> reply.decoded.Some?
    ensures r.Success? ==> r.value == reply.decoded.value
  {
    if reply.decoded.Some? then Success(reply.decoded.value) else Failure(ValueError("No JSON object could be decoded"))
  }

  /** The driver operations, by the request each one sends. */
  datatype Operation =
    | ListContainersOp
    | ListContainerObjectsOp(container: Container)
    | GetContainerOp(containerName: string)
    | GetObjectOp(containerName: string, objectName: string)
    | CreateContainerOp(name: string)
    | DeleteContainerOp(container: Container)
    | DeleteObjectOp(obj: StorageObject)
    | FetchObjectOp(obj: StorageObject)

  /** The action, HTTP verb and raw flag handed to `request`. */
  datatype DriverCall = DriverCall(action: string, verb: string, raw: bool)

  function CallOf(op: Operation): (c: DriverCall)
    ensures c.raw <==> op.FetchObjectOp?
    ensures c.verb == "GET" <==> op.ListContainersOp? || op.ListContainerObjectsOp? || op.FetchObjectOp?
    ensures c.verb == "HEAD" <==> op.GetContainerOp? || op.GetObjectOp?
    ensures c.verb == "PUT" <==> op.CreateContainerOp?
    ensures c.verb == "DELETE" <==> op.DeleteContainerOp? || op.DeleteObjectOp?
    ensures op.ListContainersOp? ==> c.action == ""
    ensures op.ListContainerObjectsOp? ==> c.action == "/" + op.container.name
    ensures op.GetContainerOp? ==> c.action == "/" + op.containerName
    ensures op.GetObjectOp? ==> c.action == "/" + op.containerName + "/" + op.objectName
    ensures op.DeleteObjectOp? || op.FetchObjectOp? ==> c.action == "/" + op.obj.container.name + "/" + op.obj.name
    ensures op.CreateContainerOp? ==> c.action == "/" + CleanContainerName(op.name)
    ensures op.DeleteContainerOp? ==> c.action == "/" + CleanContainerName(op.container.name)
  {
    match op
    case ListContainersOp => DriverCall("", "GET", false)
    case ListContainerObjectsOp(c) => DriverCall("/" + c.name, "GET", false)
    case GetContainerOp(n) => DriverCall("/" + n, "HEAD", false)
    case GetObjectOp(cn, on) => DriverCall("/" + cn + "/" + on, "HEAD", false)
    case CreateContainerOp(n) => DriverCall("/" + CleanContainerName(n), "PUT", false)
    case DeleteContainerOp(c) => DriverCall("/" + CleanContainerName(c.name), "DELETE", false)
    case DeleteObjectOp(o) => DriverCall("/" + o.container.name + "/" + o.name, "DELETE", false)
    case FetchObjectOp(o) => DriverCall("/" + o.container.name + "/" + o.name, "GET", true)
  }

  /** Getting, deleting and downloading an object all address the same
      `/container/object` path and differ in verb; only the download is
      raw. */
  lemma ObjectCallsShareAction(obj: StorageObject)
    ensures CallOf(GetObjectOp(obj.container.name, obj.name)).action == CallOf(DeleteObjectOp(obj)).action
    ensures CallOf(DeleteObjectOp(obj)).action == CallOf(FetchObjectOp(obj)).action
    ensures CallOf(GetObjectOp(obj.container.name, obj.name)).verb != CallOf(DeleteObjectOp(obj)).verb
    ensures CallOf(DeleteObjectOp(obj)).verb != CallOf(FetchObjectOp(obj)).verb
    ensures CallOf(FetchObjectOp(obj)).raw && !CallOf(GetObjectOp(obj.container.name, obj.name)).raw
  {
  }

  /** `_clean_container_name`: one leading slash is removed. */
  function CleanContainerName(name: string): (r: string)
    ensures StartsWith(name, "/") ==> r == name[1..]
    ensures !StartsWith(name, "/") ==> r == name
  {
    if StartsWith(name, "/") then name[1..] else name
  }

  /** Only one slash goes: the function inverts putting a slash in front,
      so `//x` becomes `/x`, and it is the identity on other names. */
  lemma CleanContainerNameRemovesOneSlash(name: string)
    ensures CleanContainerName("/" + name) == name
    ensures name == [] || name[0] != '/' ==> CleanContainerName(name) == name
    ensures |name| - 1 <= |CleanContainerName(name)| <= |name|
  {
    assert ("/" + name)[..1] == "/" && ("/" + name)[1..] == name;
  }

  // Listings

  /** One entry of the container listing: count and bytes become integers,
      looked up in the order the code evaluates them. */
  function ToContainer(v: Value): (r: Outcome<Container>)
    ensures r.Success? <==>
      v.Dict? && "count" in v.entries && PyInt(v.entries["count"]).Success?
      && "bytes" in v.entries && PyInt(v.entries["bytes"]).Success? && "name" in v.entries
    ensures r.Success? ==>
      r.value == Container(PyStr(v.entries["name"]),
                           map["object_count" := Int(PyInt(v.entries["count"]).value),
                               "size" := Int(PyInt(v.entries["bytes"]).value)])
  {
    var count :- Lookup(v, "count");
    var objectCount :- PyInt(count);
    var bytes :- Lookup(v, "bytes");
    var size :- PyInt(bytes);
    var name :- Lookup(v, "name");
    Success(NewContainer(PyStr(name), Some(map["object_count" := Int(objectCount), "size" := Int(size)])))
  }

  /** `_to_container_list`: one container per listed entry, in order;
      it fails exactly when an entry does not convert. */
  function ContainerListOf(response: Value): (r: Outcome<seq<Container>>)
    ensures r.Success? <==>
      SubscriptableElements(response).Success? &&
      forall i :: 0 <= i < |SubscriptableElements(response).value| ==>
        ToContainer(SubscriptableElements(response).value[i]).Success?
    ensures r.Success? ==>
      |r.value| == |SubscriptableElements(response).value| &&
      forall i :: 0 <= i < |r.value| ==> r.value[i] == ToContainer(SubscriptableElements(response).value[i]).value
  {
    var items :- SubscriptableElements(response);
    MapAllSpec(ToContainer, items);
    MapAll(ToContainer, items)
  }

  /** `_to_container_list`. */
  method ToContainerList(response: Value) returns (r: Outcome<seq<Container>>)
    ensures r == ContainerListOf(response)
  {
    var items :- SubscriptableElements(response);
    var containers: seq<Container> := [];
    assert items[0..] == items;
    PrependNothing(MapAll(ToContainer, items));
    for i := 0 to |items|
      invariant MapAll(ToContainer, items) == Prepend(containers, MapAll(ToContainer, items[i..]))
    {
      MapAllStep(ToContainer, items, i, containers);
      var container :- ToContainer(items[i]);
      containers := containers + [container];
    }
    assert items[|items|..] == [];
    assert containers + [] == containers;
    return Success(containers);
  }

  /** One entry of the object listing. The listing's hash is read (and a
      missing one raises) but the new object drops it. */
  function ToObject(container: Container, v: Value): (r: Outcome<StorageObject>)
    ensures r.Success? <==>
      v.Dict? && "name" in v.entries && "bytes" in v.entries && PyInt(v.entries["bytes"]).Success?
      && "hash" in v.entries && "content_type" in v.entries && "last_modified" in v.entries
    ensures r.Success? ==>
      && r.value.name == PyStr(v.entries["name"])
      && r.value.size == PyInt(v.entries["bytes"]).value
      && r.value.hash == None
      && r.value.extra == map["content_type" := v.entries["content_type"], "last_modified" := v.entries["last_modified"]]
      && r.value.metaData == map[]
      && r.value.container == container
  {
    var name :- Lookup(v, "name");
    var bytes :- Lookup(v, "bytes");
    var size :- PyInt(bytes);
    var hash :- Lookup(v, "hash");
    var contentType :- Lookup(v, "content_type");
    var lastModified :- Lookup(v, "last_modified");
    Success(NewObject(PyStr(name), size, Some(PyStr(hash)),
                      Some(map["content_type" := contentType, "last_modified" := lastModified]), None, container))
  }

  /** `_to_object_list`: one object of `container` per listed entry, in
      order; it fails exactly when an entry does not convert. */
  function ObjectListOf(response: Value, container: Container): (r: Outcome<seq<StorageObject>>)
    ensures r.Success? <==>
      SubscriptableElements(response).Success? &&
      forall i :: 0 <= i < |SubscriptableElements(response).value| ==>
        ToObject(container, SubscriptableElements(response).value[i]).Success?
    ensures r.Success? ==>
      |r.value| == |SubscriptableElements(response).value| &&
      forall i :: 0 <= i < |r.value| ==>
        r.value[i] == ToObject(container, SubscriptableElements(response).value[i]).value
  {
    var items :- SubscriptableElements(response);
    MapAllSpec(v => ToObject(container, v), items);
    MapAll(v => ToObject(container, v), items)
  }

  /** `_to_object_list`. */
  method ToObjectList(response: Value, container: Container) returns (r: Outcome<seq<StorageObject>>)
    ensures r == ObjectListOf(response, container)
  {
    var items :- SubscriptableElements(response);
    var convert := v => ToObject(container, v);
    var objects: seq<StorageObject> := [];
    assert items[0..] == items;
    PrependNothing(MapAll(convert, items));
    for i := 0 to |items|
      invariant MapAll(convert, items) == Prepend(objects, MapAll(convert, items[i..]))
    {
      MapAllStep(convert, items, i, objects);
      var obj :- convert(items[i]);
      objects := objects + [obj];
    }
    assert items[|items|..] == [];
    assert objects + [] == objects;
    return Success(objects);
  }

  /** A listing converts entry by entry: one container per entry, in order,
      carrying the entry's count and bytes; it fails if any entry does. */
  lemma ContainerListSpec(items: seq<Value>)
    ensures ContainerListOf(List(items)).Success? <==> forall i :: 0 <= i < |items| ==> ToContainer(items[i]).Success?
    ensures ContainerListOf(List(items)).Success? ==>
      |ContainerListOf(List(items)).value| == |items| &&
      forall i :: 0 <= i < |items| ==> ContainerListOf(List(items)).value[i] == ToContainer(items[i]).value
  {
    MapAllSpec(ToContainer, items);
  }

  /** Every listed object lies in the listed container and has no hash,
      whatever hash the listing reports. */
  lemma ObjectListSpec(items: seq<Value>, container: Container)
    ensures ObjectListOf(List(items), container).Success? <==>
      forall i :: 0 <= i < |items| ==> ToObject(container, items[i]).Success?
    ensures ObjectListOf(List(items), container).Success? ==>
      |ObjectListOf(List(items), container).value| == |items| &&
      forall i :: 0 <= i < |items| ==>
        ObjectListOf(List(items), container).value[i] == ToObject(container, items[i]).value &&
        ObjectListOf(List(items), container).value[i].hash == None &&
        ObjectListOf(List(items), container).value[i].container == container
  {
    MapAllSpec(v => ToObject(container, v), items);
  }

  /** `list_containers`: 204 is an empty listing, 200 a JSON listing, any
      other status raises. */
  function ListContainers(reply: StorageResponse): (r: Outcome<seq<Container>>)
    ensures reply.status == NO_CONTENT ==> r == Success([])
    ensures reply.status == OK && reply.decoded.None? ==> r.Failure? && r.error.ValueError?
    ensures reply.status == OK && reply.decoded.Some? ==> r == ContainerListOf(reply.decoded.value)
    ensures reply.status != NO_CONTENT && reply.status != OK ==> r == Failure(UnexpectedStatus(reply.status))
  {
    if reply.status == NO_CONTENT then Success([])
    else if reply.status == OK then
      var v :- LoadJson(reply);
      ContainerListOf(v)
    else Failure(UnexpectedStatus(reply.status))
  }

  /** `list_container_objects`: the same classification for one container. */
  function ListContainerObjects(container: Container, reply: StorageResponse): (r: Outcome<seq<StorageObject>>)
    ensures reply.status == NO_CONTENT ==> r == Success([])
    ensures reply.status == OK && reply.decoded.None? ==> r.Failure? && r.error.ValueError?
    ensures reply.status == OK && reply.decoded.Some? ==> r == ObjectListOf(reply.decoded.value, container)
    ensures reply.status != NO_CONTENT && reply.status != OK ==> r == Failure(UnexpectedStatus(reply.status))
  {
    if reply.status == NO_CONTENT then Success([])
    else if reply.status == OK then
      var v :- LoadJson(reply);
      ObjectListOf(v, container)
    else Failure(UnexpectedStatus(reply.status))
  }

  // Containers

  /** `_headers_to_container`: the byte count and the object count come
      from the headers and are 0 when absent. */
  function HeadersToContainer(name: string, headers: map<string, Value>): (r: Outcome<Container>)
    ensures r.Success? <==>
      PyInt(GetOr(headers, "x-container-bytes-used", Int(0))).Success? &&
      PyInt(GetOr(headers, "x-container-object-count", Int(0))).Success?
    ensures r.Success? ==> r.value.name == name && r.value.extra.Keys == {"object_count", "size"}
    ensures r.Success? ==>
      r.value.extra["size"] == Int(PyInt(GetOr(headers, "x-container-bytes-used", Int(0))).value) &&
      r.value.extra["object_count"] == Int(PyInt(GetOr(headers, "x-container-object-count", Int(0))).value)
  {
    var size :- PyInt(GetOr(headers, "x-container-bytes-used", Int(0)));
    var objectCount :- PyInt(GetOr(headers, "x-container-object-count", Int(0)));
    Success(NewContainer(name, Some(map["object_count" := Int(objectCount), "size" := Int(size)])))
  }

  /** Missing size headers give an empty container record. */
  lemma HeadersToContainerDefaults(name: string, headers: map<string, Value>)
    requires "x-container-bytes-used" !in headers && "x-container-object-count" !in headers
    ensures HeadersToContainer(name, headers) == Success(Container(name, map["object_count" := Int(0), "size" := Int(0)]))
  {
  }

  /** `get_container`: 204 carries the container in its headers, 404 is a
      missing container, anything else raises. */
  function GetContainer(name: string, reply: StorageResponse): (r: Outcome<Container>)
    ensures reply.status == NO_CONTENT ==> r == HeadersToContainer(name, reply.headers)
    ensures reply.status == NOT_FOUND ==> r == Failure(ContainerDoesNotExistError(name))
    ensures reply.status != NO_CONTENT && reply.status != NOT_FOUND ==> r == Failure(UnexpectedStatus(reply.status))
  {
    if reply.status == NO_CONTENT then HeadersToContainer(name, reply.headers)
    else if reply.status == NOT_FOUND then Failure(ContainerDoesNotExistError(name))
    else Failure(UnexpectedStatus(reply.status))
  }

  /** The container of the driver's tests. */
  lemma GetContainerExample()
    ensures GetContainer("test_container", StorageResponse(NO_CONTENT,
              map["x-container-object-count" := Int(800), "x-container-bytes-used" := Int(1234568)], "", None))
            == Success(Container("test_container", map["object_count" := Int(800), "size" := Int(1234568)]))
  {
    var h := map["x-container-object-count" := Int(800), "x-container-bytes-used" := Int(1234568)];
    assert GetOr(h, "x-container-bytes-used", Int(0)) == Int(1234568);
    assert GetOr(h, "x-container-object-count", Int(0)) == Int(800);
  }

  /** `create_container`: the name is cleaned; 201 is a new empty container,
      202 means it exists already, anything else raises. */
  function CreateContainer(name: string, reply: StorageResponse): (r: Outcome<Container>)
    ensures reply.status == CREATED ==> r == Success(Container(CleanContainerName(name), map["object_count" := Int(0)]))
    ensures reply.status == ACCEPTED ==> r == Failure(ContainerAlreadyExistsError(CleanContainerName(name)))
    ensures reply.status != CREATED && reply.status != ACCEPTED ==> r == Failure(UnexpectedStatus(reply.status))
  {
    var cleaned := CleanContainerName(name);
    if reply.status == CREATED then Success(NewContainer(cleaned, Some(map["object_count" := Int(0)])))
    else if reply.status == ACCEPTED then Failure(ContainerAlreadyExistsError(cleaned))
    else Failure(UnexpectedStatus(reply.status))
  }

  /** `delete_container`: 204 is `True`, 404 and 409 raise, and any other
      status falls off the end and returns `None`. */
  function DeleteContainer(container: Container, reply: StorageResponse): (r: Outcome<Option<bool>>)
    ensures r == Success(Some(true)) <==> reply.status == NO_CONTENT
    ensures reply.status == NOT_FOUND ==> r == Failure(ContainerDoesNotExistError(CleanContainerName(container.name)))
    ensures reply.status == CONFLICT ==> r == Failure(ContainerIsNotEmptyError(CleanContainerName(container.name)))
    ensures r.Failure? <==> reply.status == NOT_FOUND || reply.status == CONFLICT
    ensures r.Success? ==> r.value != Some(false)
  {
    var name := CleanContainerName(container.name);
    if reply.status == NO_CONTENT then Success(Some(true))
    else if reply.status == NOT_FOUND then Failure(ContainerDoesNotExistError(name))
    else if reply.status == CONFLICT then Failure(ContainerIsNotEmptyError(name))
    else Success(None)
  }

  // Objects

  const META_PREFIX: string := "x-object-meta-"

  /** The headers `_headers_to_object` pops before it scans for metadata. */
  const POPPED_HEADERS: set<string> := {"content-length", "last-modified", "etag", "content-type"}

  /** `key.find('x-object-meta-') != -1`: the prefix occurs anywhere. */
  predicate IsMetaKey(key: string) { Contains(key, META_PREFIX) }

  /** `key.replace('x-object-meta-', '')`: every occurrence goes. */
  function MetaName(key: string): string {
    ReplaceAll(key, META_PREFIX, "")
  }

  /** `meta` is what the scan over `headers` builds: one entry per metadata
      header name, holding the value of a header with that name (which one,
      when several headers share a name, depends on the dictionary's
      iteration order). */
  predicate MetaDataFrom(headers: map<string, Value>, meta: map<string, Value>) {
    && meta.Keys == (set k | k in headers && IsMetaKey(k) :: MetaName(k))
    && forall m :: m in meta ==> exists k :: k in headers && IsMetaKey(k) && MetaName(k) == m && meta[m] == headers[k]
  }

  /** A header named with the prefix in front of a name free of it is a
      metadata header for exactly that name. */
  lemma MetaNameOfPrefixed(n: string)
    requires !Contains(n, META_PREFIX)
    ensures IsMetaKey(META_PREFIX + n) && MetaName(META_PREFIX + n) == n
  {
    var k := META_PREFIX + n;
    assert k[..|META_PREFIX|] == META_PREFIX && k[|META_PREFIX|..] == n;
    ReplaceAbsent(n, META_PREFIX, "");
  }

  /** Such a header, when no other header strips to the same name, lands
      in the metadata under that name with its value. */
  lemma MetaDataPickedUp(headers: map<string, Value>, meta: map<string, Value>, n: string)
    requires MetaDataFrom(headers, meta)
    requires META_PREFIX + n in headers && !Contains(n, META_PREFIX)
    requires forall k :: k in headers && IsMetaKey(k) && MetaName(k) == n ==> k == META_PREFIX + n
    ensures n in meta && meta[n] == headers[META_PREFIX + n]
  {
    MetaNameOfPrefixed(n);
  }

  /** Without metadata headers there is no metadata. */
  lemma NoMetaHeadersNoMetaData(headers: map<string, Value>, meta: map<string, Value>)
    requires MetaDataFrom(headers, meta)
    requires forall k :: k in headers ==> !IsMetaKey(k)
    ensures meta == map[]
  {
    assert meta.Keys == {};
  }

  /** What `_headers_to_object` yields for the headers it is given. */
  predicate IsObjectFromHeaders(name: string, container: Container, headers: map<string, Value>,
                                r: Outcome<StorageObject>)
  {
    var size := PyInt(GetOr(headers, "content-length", Int(0)));
    if size.Failure? then r == Failure(size.error)
    else
      && r.Success?
      && r.value.name == name && r.value.size == size.value && r.value.hash == None
      && r.value.container == container
      && r.value.extra == map["content_type" := GetOr(headers, "content-type", Null),
                              "last_modified" := GetOr(headers, "last-modified", Null),
                              "etag" := GetOr(headers, "etag", Null)]
      && MetaDataFrom(headers - POPPED_HEADERS, r.value.metaData)
  }

  /** `_headers_to_object`. The four standard headers are popped from the
      dictionary (`rest` is what remains of it: only content-length is gone
      when its value is not an integer), then every remaining header whose
      name contains the metadata prefix is copied with the prefix removed. */
  method HeadersToObject(name: string, container: Container, headers: map<string, Value>)
    returns (r: Outcome<StorageObject>, rest: map<string, Value>)
    ensures IsObjectFromHeaders(name, container, headers, r)
    ensures r.Success? ==> rest == headers - POPPED_HEADERS
    ensures r.Failure? ==> rest == headers - {"content-length"}
  {
    rest := headers - {"content-length"};
    var size := PyInt(GetOr(headers, "content-length", Int(0)));
    if size.Failure? {
      return Failure(size.error), rest;
    }
    var lastModified := GetOr(rest, "last-modified", Null);
    rest := rest - {"last-modified"};
    var etag := GetOr(rest, "etag", Null);
    rest := rest - {"etag"};
    var contentType := GetOr(rest, "content-type", Null);
    rest := rest - {"content-type"};
    assert rest == headers - POPPED_HEADERS;
    var metaData: map<string, Value> := map[];
    var keys := rest.Keys;
    ghost var visited: set<string> := {};
    while keys != {}
      invariant keys + visited == rest.Keys && keys !! visited
      invariant metaData.Keys == (set k | k in visited && IsMetaKey(k) :: MetaName(k))
      invariant forall m :: m in metaData ==>
        exists k :: k in visited && IsMetaKey(k) && MetaName(k) == m && metaData[m] == rest[k]
      decreases keys
    {
      var key :| key in keys;
      if Contains(key, META_PREFIX) {
        metaData := metaData[MetaName(key) := rest[key]];
      }
      keys := keys - {key};
      visited := visited + {key};
    }
    var extra := map["content_type" := contentType, "last_modified" := lastModified, "etag" := etag];
    r := Success(NewObject(name, size.value, None, Some(extra), Some(metaData), container));
  }

  /** `get_object`: the container is fetched first and its failure
      propagates; then 200 or 204 carry the object in their headers, 404 is
      a missing object, anything else raises. */
  method GetObject(containerName: string, objectName: string, containerReply: StorageResponse,
                   objectReply: StorageResponse) returns (r: Outcome<StorageObject>)
    ensures GetContainer(containerName, containerReply).Failure? ==>
      r == Failure(GetContainer(containerName, containerReply).error)
    ensures GetContainer(containerName, containerReply).Success? ==>
      var container := GetContainer(containerName, containerReply).value;
      && (objectReply.status == OK || objectReply.status == NO_CONTENT ==>
            IsObjectFromHeaders(objectName, container, objectReply.headers, r))
      && (objectReply.status == NOT_FOUND ==> r == Failure(ObjectDoesNotExistError(objectName)))
      && (objectReply.status != OK && objectReply.status != NO_CONTENT && objectReply.status != NOT_FOUND ==>
            r == Failure(UnexpectedStatus(objectReply.status)))
  {
    var container :- GetContainer(containerName, containerReply);
    if objectReply.status == OK || objectReply.status == NO_CONTENT {
      var obj, _ := HeadersToObject(objectName, container, objectReply.headers);
      return obj;
    } else if objectReply.status == NOT_FOUND {
      return Failure(ObjectDoesNotExistError(objectName));
    }
    return Failure(UnexpectedStatus(objectReply.status));
  }

  /** `delete_object`: 204 is `True`, 404 a missing object, anything else
      raises. */
  function DeleteObject(obj: StorageObject, reply: StorageResponse): (r: Outcome<bool>)
    ensures r.Success? <==> reply.status == NO_CONTENT
    ensures r.Success? ==> r.value
    ensures reply.status == NOT_FOUND ==> r == Failure(ObjectDoesNotExistError(obj.name))
    ensures reply.status != NO_CONTENT && reply.status != NOT_FOUND ==> r == Failure(UnexpectedStatus(reply.status))
  {
    if reply.status == NO_CONTENT then Success(true)
    else if reply.status == NOT_FOUND then Failure(ObjectDoesNotExistError(obj.name))
    else Failure(UnexpectedStatus(reply.status))
  }

  /** `success()` agrees with the driver's status mapping: every status on
      which an operation returns a result (or `delete_container` returns
      `True`) is a success status, and the statuses the driver names as
      missing or conflicting are not. */
  lemma DriverResultsOnSuccessStatus(container: Container, name: string, obj: StorageObject,
                                     reply: StorageResponse)
    ensures ListContainers(reply).Success? ==> IsSuccess(reply.status)
    ensures ListContainerObjects(container, reply).Success? ==> IsSuccess(reply.status)
    ensures GetContainer(name, reply).Success? ==> IsSuccess(reply.status)
    ensures CreateContainer(name, reply).Success? ==> IsSuccess(reply.status)
    ensures DeleteContainer(container, reply) == Success(Some(true)) ==> IsSuccess(reply.status)
    ensures DeleteObject(obj, reply).Success? ==> IsSuccess(reply.status)
    ensures reply.status == OK || reply.status == NO_CONTENT ==> IsSuccess(reply.status)
    ensures reply.status == NOT_FOUND || reply.status == CONFLICT ==> !IsSuccess(reply.status)
  {
  }

  /** How `_get_object` refuses a status other than 200. */
  function FetchError(obj: StorageObject, status: int): Error {
    if status == NOT_FOUND then ObjectDoesNotExistError(obj.name) else UnexpectedStatus(status)
  }

  /** `download_object`: `_get_object` with `_save_object` as callback; the
      body is saved only on 200 (`status` and `body` are the raw response). */
  method DownloadObject(obj: StorageObject, dest: string, overwrite: bool, deleteOnFailure: bool,
                        status: int, body: Reader, fs: FileSystem) returns (r: Outcome<bool>)
    modifies body, fs
    ensures status != OK ==> r == Failure(FetchError(obj, status)) && unchanged(body) && unchanged(fs)
    ensures status == OK ==> SavedObject(body, fs, obj, dest, overwrite, deleteOnFailure, r)
  {
    if status == OK {
      r := SaveObject(body, fs, obj, dest, overwrite, deleteOnFailure);
      return;
    }
    return Failure(FetchError(obj, status));
  }

  /** `object_as_stream`: `_get_object` with `_get_object_as_stream` as
      callback, run to exhaustion on 200. */
  method ObjectAsStream(obj: StorageObject, chunkSize: Option<int>, status: int, body: Reader)
    returns (r: Outcome<seq<Bytes>>)
    modifies body
    ensures status != OK ==> r == Failure(FetchError(obj, status)) && unchanged(body)
    ensures status == OK ==>
      && r == Success(ChunksBeforeEmpty(old(body.pending)))
      && body.pending == RemainingAfterEmpty(old(body.pending))
      && body.sizes == old(body.sizes) + Repeat(Some(EffectiveChunkSize(chunkSize)), |r.value| + 1)
  {
    if status == OK {
      var chunks := GetObjectAsStream(body, chunkSize);
      return Success(chunks);
    }
    return Failure(FetchError(obj, status));
  }
}
