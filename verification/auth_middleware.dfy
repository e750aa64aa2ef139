/**
 * The HTTP authentication middlewares: credential resolution (an API key takes
 * precedence over a Bearer token), validation through the authentication port,
 * building the request's authentication context, and the response or `next`
 * call that ends each path.
 *
 * The authentication port's answers are inputs (`AuthPort`); a port call that
 * throws answers `Raised`. The request, the response and the `next` callback
 * are the fields of the class `Exchange`.
 */
module HttpAuth {
  import opened Wrappers
  import opened Domain

  /** A port call either returns a value or throws. */
  datatype Reply<+T> = Returned(value: T) | Raised

  /** What a validated credential identifies; either part may be missing. */
  datatype Identity = Identity(tenantId: Option<string>, userId: Option<string>)

  datatype AuthPort = AuthPort(
    validateApiKey: string -> Reply<Option<Identity>>,
    validateToken: string -> Reply<Option<Identity>>,
    buildAuthContext: (Option<string>, Option<string>) -> Reply<AuthContext>)

  /** The `x-api-key` and `Authorization` request headers. */
  datatype Headers = Headers(apiKey: Option<string>, authorization: Option<string>)

  /** One constructor per distinct error response. */
  datatype Rejection = InvalidApiKey | InvalidToken | AuthenticationRequired | InternalError

  /** The HTTP status of each error response: 500 for a thrown port call, 401 for every other rejection. */
  function Status(r: Rejection): (status: int)
    ensures status == 500 <==> r == InternalError
    ensures status == 401 <==> r != InternalError
  {
    if r == InternalError then 500 else 401
  }

  /** The `error` field of the JSON body. */
  function ErrorText(r: Rejection): string {
    match r
    case InvalidApiKey => "Invalid API key"
    case InvalidToken => "Invalid or expired token"
    case AuthenticationRequired => "Authentication required"
    case InternalError => "Internal server error"
  }

  /** An error response as sent: its status and the `error` field of its JSON body. */
  datatype Response = Response(status: int, error: string)

  function ResponseFor(r: Rejection): Response {
    Response(Status(r), ErrorText(r))
  }

  /** A client can tell the four rejections apart from the response alone. */
  lemma ResponsesDistinguishRejections(a: Rejection, b: Rejection)
    requires ResponseFor(a) == ResponseFor(b)
    ensures a == b
  {
  }

  /** How a middleware run ends: an error response, or `next` with the context attached (if any). */
  datatype Outcome = Respond(rejection: Rejection) | Next(authContext: Option<AuthContext>)

  const BearerPrefix := "Bearer "

  predicate IsBearer(header: string) {
    |header| >= |BearerPrefix| && header[..|BearerPrefix|] == BearerPrefix
  }

  datatype Credential = ApiKey(key: string) | BearerToken(token: string) | NoCredential

  /** The credential a request presents: a truthy API key wins; otherwise a Bearer token; otherwise none. */
  function CredentialOf(headers: Headers): (c: Credential)
    ensures c.ApiKey? <==> Truthy(headers.apiKey)
    ensures c.ApiKey? ==> c.key == headers.apiKey.value
    ensures c.BearerToken? <==>
      !Truthy(headers.apiKey) && headers.authorization.Some? && IsBearer(headers.authorization.value)
    ensures c.BearerToken? ==> headers.authorization.value == BearerPrefix + c.token
  {
    if Truthy(headers.apiKey) then ApiKey(headers.apiKey.value)
    else if headers.authorization.Some? && IsBearer(headers.authorization.value) then
      var h := headers.authorization.value;
      assert h == h[..|BearerPrefix|] + h[|BearerPrefix|..];
      BearerToken(h[|BearerPrefix|..])
    else NoCredential
  }

  /** The port's answer for a presented credential. */
  function Validate(port: AuthPort, c: Credential): Reply<Option<Identity>>
    requires !c.NoCredential?
  {
    if c.ApiKey? then port.validateApiKey(c.key) else port.validateToken(c.token)
  }

  /** The rejection for a credential the port does not recognise. */
  function Unrecognised(c: Credential): Rejection {
    if c.ApiKey? then InvalidApiKey else InvalidToken
  }

  /**
   * The required middleware: a missing credential, an unrecognised API key and
   * an unrecognised token each get their own 401; a port call that throws gets
   * a 500; otherwise `next` is called with the context built from the
   * validated tenant and user.
   */
  function Authenticate(headers: Headers, port: AuthPort): (r: Outcome)
    ensures r == Respond(AuthenticationRequired) <==> CredentialOf(headers).NoCredential?
    ensures r == Respond(InvalidApiKey) <==>
      CredentialOf(headers).ApiKey? && Validate(port, CredentialOf(headers)) == Returned(None)
    ensures r == Respond(InvalidToken) <==>
      CredentialOf(headers).BearerToken? && Validate(port, CredentialOf(headers)) == Returned(None)
    ensures r == Respond(InternalError) <==>
      !CredentialOf(headers).NoCredential? &&
      (Validate(port, CredentialOf(headers)).Raised? ||
       (Validate(port, CredentialOf(headers)).value.Some? &&
        var id := Validate(port, CredentialOf(headers)).value.value;
        port.buildAuthContext(id.tenantId, id.userId).Raised?))
    ensures r.Next? ==>
      !CredentialOf(headers).NoCredential? &&
      var v := Validate(port, CredentialOf(headers));
      v.Returned? && v.value.Some? &&
      r.authContext == Some(port.buildAuthContext(v.value.value.tenantId, v.value.value.userId).value)
  {
    var c := CredentialOf(headers);
    if c.NoCredential? then Respond(AuthenticationRequired)
    else
      var v := Validate(port, c);
      if v.Raised? then Respond(InternalError)
      else if v.value.None? then Respond(Unrecognised(c))
      else
        var built := port.buildAuthContext(v.value.value.tenantId, v.value.value.userId);
        if built.Raised? then Respond(InternalError) else Next(Some(built.value))
  }

  /**
   * The optional middleware: it always calls `next`, and attaches a context
   * only when a presented credential was recognised with a truthy tenant and
   * the context could be built.
   */
  function AuthenticateOptional(headers: Headers, port: AuthPort): (r: Outcome)
    ensures r.Next?
    ensures !Truthy(headers.apiKey) && !Truthy(headers.authorization) ==> r == Next(None)
    ensures r.authContext.Some? <==>
      !CredentialOf(headers).NoCredential? &&
      var v := Validate(port, CredentialOf(headers));
      v.Returned? && v.value.Some? && Truthy(v.value.value.tenantId) &&
      port.buildAuthContext(v.value.value.tenantId, v.value.value.userId).Returned?
    ensures r.authContext.Some? ==>
      var id := Validate(port, CredentialOf(headers)).value.value;
      r.authContext.value == port.buildAuthContext(id.tenantId, id.userId).value
  {
    if !Truthy(headers.apiKey) && !Truthy(headers.authorization) then Next(None)
    else
      var c := CredentialOf(headers);
      if c.NoCredential? then Next(None)
      else
        var v := Validate(port, c);
        if v.Raised? || v.value.None? || !Truthy(v.value.value.tenantId) then Next(None)
        else
          var built := port.buildAuthContext(v.value.value.tenantId, v.value.value.userId);
          if built.Raised? then Next(None) else Next(Some(built.value))
  }

  /** With a truthy API key, the Authorization header is never consulted, in either middleware. */
  lemma ApiKeyShadowsAuthorization(headers: Headers, other: Option<string>, port: AuthPort)
    requires Truthy(headers.apiKey)
    ensures Authenticate(headers, port) == Authenticate(headers.(authorization := other), port)
    ensures AuthenticateOptional(headers, port) == AuthenticateOptional(headers.(authorization := other), port)
  {
  }

  /**
   * Where the optional middleware attaches a context, the required one admits
   * the request with the same context; and where the required one admits a
   * request whose identity has a truthy tenant, the optional one agrees.
   */
  lemma OptionalAgreesWithRequired(headers: Headers, port: AuthPort)
    ensures AuthenticateOptional(headers, port).authContext.Some? ==>
      Authenticate(headers, port) == AuthenticateOptional(headers, port)
    ensures Authenticate(headers, port).Next? &&
            Truthy(Validate(port, CredentialOf(headers)).value.value.tenantId) ==>
      AuthenticateOptional(headers, port) == Authenticate(headers, port)
  {
  }

  /** The request's context slot, the response sent, and the `next` calls made. */
  class Exchange {
    var authContext: Option<AuthContext>
    /** The error response sent, if one was. */
    var sent: Option<Response>
    var nextCalls: nat

    constructor ()
      ensures authContext == None && sent == None && nextCalls == 0
    {
      authContext := None;
      sent := None;
      nextCalls := 0;
    }

    method Respond(r: Rejection)
      modifies this
      ensures sent == Some(ResponseFor(r)) && authContext == old(authContext) && nextCalls == old(nextCalls)
    {
      sent := Some(ResponseFor(r));
    }

    method Next()
      modifies this
      ensures nextCalls == old(nextCalls) + 1 && sent == old(sent) && authContext == old(authContext)
    {
      nextCalls := nextCalls + 1;
    }
  }

  /** Runs the required middleware on one request; the exchange ends as `Authenticate` says. */
  method AuthMiddleware(port: AuthPort, headers: Headers, ex: Exchange)
    modifies ex
    ensures Authenticate(headers, port).Respond? ==>
      ex.sent == Some(ResponseFor(Authenticate(headers, port).rejection)) &&
      ex.authContext == old(ex.authContext) && ex.nextCalls == old(ex.nextCalls)
    ensures Authenticate(headers, port).Next? ==>
      ex.authContext == Authenticate(headers, port).authContext &&
      ex.sent == old(ex.sent) && ex.nextCalls == old(ex.nextCalls) + 1
  {
    var tenantId: Option<string> := None;
    var userId: Option<string> := None;
    if Truthy(headers.apiKey) {
      var info := port.validateApiKey(headers.apiKey.value);
      if info.Raised? {
        ex.Respond(InternalError);
        return;
      }
      if info.value.None? {
        ex.Respond(InvalidApiKey);
        return;
      }
      tenantId := info.value.value.tenantId;
      userId := info.value.value.userId;
    } else if headers.authorization.Some? && IsBearer(headers.authorization.value) {
      var token := headers.authorization.value[|BearerPrefix|..];
      var payload := port.validateToken(token);
      if payload.Raised? {
        ex.Respond(InternalError);
        return;
      }
      if payload.value.None? {
        ex.Respond(InvalidToken);
        return;
      }
      tenantId := payload.value.value.tenantId;
      userId := payload.value.value.userId;
    } else {
      ex.Respond(AuthenticationRequired);
      return;
    }
    var built := port.buildAuthContext(tenantId, userId);
    if built.Raised? {
      ex.Respond(InternalError);
      return;
    }
    ex.authContext := Some(built.value);
    ex.Next();
  }

  /** Runs the optional middleware on one request; the exchange ends as `AuthenticateOptional` says. */
  method OptionalAuthMiddleware(port: AuthPort, headers: Headers, ex: Exchange)
    modifies ex
    ensures ex.nextCalls == old(ex.nextCalls) + 1 && ex.sent == old(ex.sent)
    ensures AuthenticateOptional(headers, port).authContext.Some? ==>
      ex.authContext == AuthenticateOptional(headers, port).authContext
    ensures AuthenticateOptional(headers, port).authContext.None? ==> ex.authContext == old(ex.authContext)
  {
    if !Truthy(headers.apiKey) && !Truthy(headers.authorization) {
      ex.Next();
      return;
    }
    var tenantId: Option<string> := None;
    var userId: Option<string> := None;
    if Truthy(headers.apiKey) {
      var info := port.validateApiKey(headers.apiKey.value);
      if info.Raised? {
        ex.Next();
        return;
      }
      if info.value.Some? {
        tenantId := info.value.value.tenantId;
        userId := info.value.value.userId;
      }
    } else if headers.authorization.Some? && IsBearer(headers.authorization.value) {
      var token := headers.authorization.value[|BearerPrefix|..];
      var payload := port.validateToken(token);
      if payload.Raised? {
        ex.Next();
        return;
      }
      if payload.value.Some? {
        tenantId := payload.value.value.tenantId;
        userId := payload.value.value.userId;
      }
    }
    if Truthy(tenantId) {
      var built := port.buildAuthContext(tenantId, userId);
      if built.Raised? {
        ex.Next();
        return;
      }
      ex.authContext := Some(built.value);
    }
    ex.Next();
  }
}
