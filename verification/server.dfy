/** The decision logic of one SOCKS5 server (socks5/server.go): authenticator
    defaulting at construction, method selection, first-byte routing, and the
    ordered steps of a SOCKS5 session with the replies they send.

    Sockets, goroutines and the collaborators the server calls (frame parsing,
    reply encoding, the authenticators' own challenge/response, the command
    handlers and the HTTP bridge) are outside the model: what they report on a
    connection is given up front as an `Environment`, and every step the
    server takes on a connection is appended to that connection's `trace`. */
module Socks5 {
  import opened Statute

  datatype Option<T> = None | Some(value: T)

  datatype Result<T> = Ok(value: T) | Err(error: Error)

  /** Where an error was wrapped by the session (the fmt.Errorf prefixes). */
  datatype Context = FailedToAuthenticate | FailedToSendReply | FailedToReadDestination

  datatype Error =
    | NoSupportedAuth                               // statute.ErrNoSupportedAuth
    | UnrecognizedAddrType                          // statute.ErrUnrecognizedAddrType
    | Foreign(id: nat)                              // reported by I/O or a collaborator
    | Wrapped(context: Context, cause: Error)       // fmt.Errorf with %w: the cause stays reachable
    | Described(context: Context, cause: Error)     // fmt.Errorf with %v: only the text of the cause
    | UnrecognizedCommand(command: byte)            // "unrecognized command[<command>]"

  /** errors.Is: the error itself or any cause reachable through %w wrapping. */
  function Is(e: Error, target: Error): bool
  {
    e == target || (e.Wrapped? && Is(e.cause, target))
  }

  /** A credential store, known to the model only by its identity. */
  datatype CredentialStore = CredentialStore(id: nat)

  /** The authentication mechanisms a server can hold: the two the server
      installs itself, and any other one an option supplies. */
  datatype Authenticator =
    | NoAuthAuthenticator
    | UserPassAuthenticator(credentials: CredentialStore)
    | CustomAuthenticator(code: byte, id: nat)
  {
    function GetCode(): byte
    {
      match this
      case NoAuthAuthenticator => MethodNoAuth
      case UserPassAuthenticator(_) => MethodUserPassAuth
      case CustomAuthenticator(c, _) => c
    }
  }

  datatype AuthContext = AuthContext(methodCode: byte, payload: map<string, string>)

  datatype NetAddr = NetAddr(network: string, address: string)

  datatype Request = Request(
    command: byte,
    destAddr: AddrSpec,
    authContext: Option<AuthContext>,
    localAddr: Option<NetAddr>,
    remoteAddr: Option<NetAddr>)

  /** The two ways a connection can be served. */
  datatype Path = SocksPath | HttpPath

  /** One step the server takes on a connection. */
  datatype Event =
    | Routed(path: Path, unread: seq<byte>)         // ServeConn handed the buffered reader to a path
    | ReadMethods                                   // statute.ParseMethodRequest
    | Invoked(auth: Authenticator, userAddr: string) // auth.Authenticate
    | Wrote(bytes: seq<byte>)                       // a raw conn.Write
    | ReadRequest                                   // ParseRequest
    | Replied(rep: byte)                            // SendReply with this reply code
    | Dispatched(request: Request)                  // handleRequest
    | Bridged                                       // handleHTTPRequest
    | Closed                                        // the deferred conn.Close

  /** What the world outside the model reports on one connection: the
      socket's addresses and errors, and the results the collaborators return. */
  datatype Environment = Environment(
    peekError: Error,
    methodRequest: Result<seq<byte>>,
    authenticate: (Authenticator, string) -> Result<Option<AuthContext>>,  // None: a nil *AuthContext
    request: Result<Request>,
    replyError: Option<Error>,
    handleRequest: Request -> Option<Error>,
    bridge: Option<Error>,
    localAddr: Option<NetAddr>,
    remoteAddr: Option<NetAddr>)

  /** The steps an operation takes, in order, and what it returns. */
  datatype Run<T> = Run(events: seq<Event>, result: T)

  // ---------------------------------------------------------------------
  // Construction

  /** The part of the server's configuration that options may set and that
      the session's decisions depend on. */
  datatype Settings = Settings(authMethods: seq<Authenticator>, credentials: Option<CredentialStore>)

  /** An option is a closure over the configuration, as a Go `func(*Server)`. */
  type ServerOption = Settings -> Settings

  /** The configuration NewServer starts from, before options apply. */
  function InitialSettings(): Settings
  {
    Settings([], None)
  }

  /** The options applied in the order given. */
  function ApplyOptions(s: Settings, opts: seq<ServerOption>): Settings
  {
    if opts == [] then s else opts[|opts| - 1](ApplyOptions(s, opts[..|opts| - 1]))
  }

  /** The defaulting NewServer runs after the options: with no authenticator
      configured, username/password over the credential store if there is
      one, and no-auth otherwise. */
  function EnsureAuthMethods(s: Settings): (r: Settings)
    ensures |r.authMethods| > 0
    ensures r.credentials == s.credentials
  {
    if |s.authMethods| == 0 && s.credentials.Some? then
      s.(authMethods := [UserPassAuthenticator(s.credentials.value)])
    else if |s.authMethods| == 0 then
      s.(authMethods := [NoAuthAuthenticator])
    else
      s
  }

  // ---------------------------------------------------------------------
  // Method selection (section 3 of RFC 1928, server preference order)

  /** Index of the first authenticator, in server order, whose code the
      client offered anywhere in its list; None when no code was offered. */
  function SelectMethod(auths: seq<Authenticator>, offered: seq<byte>): (r: Option<nat>)
    ensures r.Some? ==> r.value < |auths| && auths[r.value].GetCode() in offered
    ensures r.Some? ==> forall j :: 0 <= j < r.value ==> auths[j].GetCode() !in offered
    ensures r.None? ==> forall j :: 0 <= j < |auths| ==> auths[j].GetCode() !in offered
  {
    if auths == [] then None
    else if auths[0].GetCode() in offered then Some(0)
    else match SelectMethod(auths[1..], offered)
      case None => None
      case Some(k) => Some(k + 1)
  }

  /** What authenticate does: invoke the selected authenticator and return
      its result, or write "no acceptable methods" and fail. */
  function AuthRun(auths: seq<Authenticator>, offered: seq<byte>, userAddr: string, env: Environment)
    : Run<Result<Option<AuthContext>>>
  {
    match SelectMethod(auths, offered)
    case Some(k) => Run([Invoked(auths[k], userAddr)], env.authenticate(auths[k], userAddr))
    case None => Run([Wrote([VersionSocks5, MethodNoAcceptable])], Err(NoSupportedAuth))
  }

  // ---------------------------------------------------------------------
  // The session

  /** The three commands of section 4 of RFC 1928. */
  function IsSupportedCommand(cmd: byte): (r: bool)
    ensures r <==> CommandConnect <= cmd <= CommandAssociate
  {
    cmd == CommandConnect || cmd == CommandBind || cmd == CommandAssociate
  }

  /** The client address handed to the authenticator: empty when the socket
      reports no remote address. */
  function UserAddr(remote: Option<NetAddr>): string
  {
    if remote.Some? then remote.value.address else ""
  }

  /** A parsed request as it reaches handleRequest: the context is the one
      authentication returned, nil included. */
  function Stamp(req: Request, ctx: Option<AuthContext>, env: Environment): Request
  {
    req.(authContext := ctx, localAddr := env.localAddr, remoteAddr := env.remoteAddr)
  }

  /** What handleSocksRequest does on a connection. */
  function SocksRun(auths: seq<Authenticator>, env: Environment): Run<Option<Error>>
  {
    match env.methodRequest
    case Err(e) => Run([ReadMethods], Some(e))
    case Ok(offered) =>
      var a := AuthRun(auths, offered, UserAddr(env.remoteAddr), env);
      var pre := [ReadMethods] + a.events;
      match a.result
      case Err(e) => Run(pre, Some(Wrapped(FailedToAuthenticate, e)))
      case Ok(ctx) =>
        match env.request
        case Err(e) =>
          if !Is(e, UnrecognizedAddrType) then
            Run(pre + [ReadRequest], Some(Wrapped(FailedToReadDestination, e)))
          else if env.replyError.Some? then
            Run(pre + [ReadRequest, Replied(RepAddrTypeNotSupported)],
                Some(Wrapped(FailedToSendReply, env.replyError.value)))
          else
            Run(pre + [ReadRequest, Replied(RepAddrTypeNotSupported)],
                Some(Wrapped(FailedToReadDestination, e)))
        case Ok(req) =>
          if !IsSupportedCommand(req.command) then
            Run(pre + [ReadRequest, Replied(RepCommandNotSupported)],
                if env.replyError.Some? then Some(Described(FailedToSendReply, env.replyError.value))
                else Some(UnrecognizedCommand(req.command)))
          else
            var stamped := Stamp(req, ctx, env);
            Run(pre + [ReadRequest, Dispatched(stamped)], env.handleRequest(stamped))
  }

  /** The path chosen for a connection whose first byte is `first`. */
  function Route(first: byte): Path
  {
    if first == VersionSocks5 then SocksPath else HttpPath
  }

  /** What ServeConn does on a connection whose unread input is `pending`. */
  function ServeRun(auths: seq<Authenticator>, pending: seq<byte>, env: Environment): Run<Option<Error>>
  {
    if pending == [] then
      Run([Closed], Some(env.peekError))
    else if Route(pending[0]) == SocksPath then
      var s := SocksRun(auths, env);
      Run([Routed(SocksPath, pending)] + s.events + [Closed], s.result)
    else
      Run([Routed(HttpPath, pending), Bridged, Closed], env.bridge)
  }

  // ---------------------------------------------------------------------
  // A client connection, as the server sees it

  class Conn {
    /** Bytes received from the client and not yet read. */
    const pending: seq<byte>
    /** Every step the server has taken on this connection, in order. */
    var trace: seq<Event>
    const env: Environment

    constructor (pending: seq<byte>, env: Environment)
      ensures this.pending == pending && this.env == env && trace == []
    {
      this.pending := pending;
      this.env := env;
      trace := [];
    }

    /** bufio.Reader.Peek(1): the next byte, left unread. */
    method Peek() returns (r: Result<byte>)
      ensures pending != [] ==> r == Ok(pending[0])
      ensures pending == [] ==> r == Err(env.peekError)
    {
      if pending == [] {
        r := Err(env.peekError);
      } else {
        r := Ok(pending[0]);
      }
    }

    /** Hands the buffered reader, as it stands, to one of the two paths. */
    method Route(path: Path)
      modifies this`trace
      ensures trace == old(trace) + [Routed(path, pending)]
    {
      trace := trace + [Routed(path, pending)];
    }

    method Write(bytes: seq<byte>)
      modifies this`trace
      ensures trace == old(trace) + [Wrote(bytes)]
    {
      trace := trace + [Wrote(bytes)];
    }

    method Close()
      modifies this`trace
      ensures trace == old(trace) + [Closed]
    {
      trace := trace + [Closed];
    }

    method ParseMethodRequest() returns (r: Result<seq<byte>>)
      modifies this`trace
      ensures trace == old(trace) + [ReadMethods] && r == env.methodRequest
    {
      trace := trace + [ReadMethods];
      r := env.methodRequest;
    }

    method InvokeAuthenticator(auth: Authenticator, userAddr: string) returns (r: Result<Option<AuthContext>>)
      modifies this`trace
      ensures trace == old(trace) + [Invoked(auth, userAddr)] && r == env.authenticate(auth, userAddr)
    {
      trace := trace + [Invoked(auth, userAddr)];
      r := env.authenticate(auth, userAddr);
    }

    method ParseRequest() returns (r: Result<Request>)
      modifies this`trace
      ensures trace == old(trace) + [ReadRequest] && r == env.request
    {
      trace := trace + [ReadRequest];
      r := env.request;
    }

    method SendReply(rep: byte) returns (err: Option<Error>)
      modifies this`trace
      ensures trace == old(trace) + [Replied(rep)] && err == env.replyError
    {
      trace := trace + [Replied(rep)];
      err := env.replyError;
    }

    method HandleRequest(req: Request) returns (err: Option<Error>)
      modifies this`trace
      ensures trace == old(trace) + [Dispatched(req)] && err == env.handleRequest(req)
    {
      trace := trace + [Dispatched(req)];
      err := env.handleRequest(req);
    }

    method BridgeHttp() returns (err: Option<Error>)
      modifies this`trace
      ensures trace == old(trace) + [Bridged] && err == env.bridge
    {
      trace := trace + [Bridged];
      err := env.bridge;
    }
  }

  // ---------------------------------------------------------------------
  // The server

  class Server {
    const authMethods: seq<Authenticator>
    const credentials: Option<CredentialStore>

    /** NewServer: apply the options in order, then make sure at least one
        authenticator is installed. */
    constructor (opts: seq<ServerOption>)
      ensures Settings(authMethods, credentials) == EnsureAuthMethods(ApplyOptions(InitialSettings(), opts))
      ensures |authMethods| > 0
    {
      var methods: seq<Authenticator> := [];
      var creds: Option<CredentialStore> := None;
      var i := 0;
      while i < |opts|
        invariant 0 <= i <= |opts|
        invariant Settings(methods, creds) == ApplyOptions(InitialSettings(), opts[..i])
      {
        assert opts[..i + 1][..i] == opts[..i];
        var s := opts[i](Settings(methods, creds));
        methods, creds := s.authMethods, s.credentials;
        i := i + 1;
      }
      assert opts[..|opts|] == opts;
      if |methods| == 0 && creds.Some? {
        methods := [UserPassAuthenticator(creds.value)];
      }
      if |methods| == 0 {
        methods := [NoAuthAuthenticator];
      }
      authMethods, credentials := methods, creds;
    }

    /** authenticate: scan the server's authenticators in order and invoke the
        first whose code the client offered. */
    method Authenticate(conn: Conn, userAddr: string, methods: seq<byte>) returns (r: Result<Option<AuthContext>>)
      modifies conn`trace
      ensures conn.trace == old(conn.trace) + AuthRun(authMethods, methods, userAddr, conn.env).events
      ensures r == AuthRun(authMethods, methods, userAddr, conn.env).result
    {
      var i := 0;
      while i < |authMethods|
        invariant 0 <= i <= |authMethods|
        invariant forall j :: 0 <= j < i ==> authMethods[j].GetCode() !in methods
        invariant conn.trace == old(conn.trace)
      {
        var auth := authMethods[i];
        var k := 0;
        while k < |methods|
          invariant 0 <= k <= |methods|
          invariant forall m :: 0 <= m < k ==> methods[m] != auth.GetCode()
          invariant conn.trace == old(conn.trace)
        {
          if auth.GetCode() == methods[k] {
            assert auth.GetCode() in methods;
            assert SelectMethod(authMethods, methods) == Some(i);
            r := conn.InvokeAuthenticator(auth, userAddr);
            return;
          }
          k := k + 1;
        }
        i := i + 1;
      }
      assert SelectMethod(authMethods, methods) == None;
      conn.Write([VersionSocks5, MethodNoAcceptable]);
      r := Err(NoSupportedAuth);
    }

    /** handleSocksRequest: methods, authentication, request, command check,
        stamping, dispatch, in that order. */
    method HandleSocksRequest(conn: Conn) returns (err: Option<Error>)
      modifies conn`trace
      ensures conn.trace == old(conn.trace) + SocksRun(authMethods, conn.env).events
      ensures err == SocksRun(authMethods, conn.env).result
    {
      var mr := conn.ParseMethodRequest();
      if mr.Err? {
        return Some(mr.error);
      }
      var userAddr := "";
      if conn.env.remoteAddr.Some? {
        userAddr := conn.env.remoteAddr.value.address;
      }
      var auth := Authenticate(conn, userAddr, mr.value);
      if auth.Err? {
        return Some(Wrapped(FailedToAuthenticate, auth.error));
      }
      var request := conn.ParseRequest();
      if request.Err? {
        if Is(request.error, UnrecognizedAddrType) {
          var sent := conn.SendReply(RepAddrTypeNotSupported);
          if sent.Some? {
            return Some(Wrapped(FailedToSendReply, sent.value));
          }
        }
        return Some(Wrapped(FailedToReadDestination, request.error));
      }
      var req := request.value;
      if req.command != CommandConnect && req.command != CommandBind && req.command != CommandAssociate {
        var sent := conn.SendReply(RepCommandNotSupported);
        if sent.Some? {
          return Some(Described(FailedToSendReply, sent.value));
        }
        return Some(UnrecognizedCommand(req.command));
      }
      req := req.(authContext := auth.value);
      req := req.(localAddr := conn.env.localAddr);
      req := req.(remoteAddr := conn.env.remoteAddr);
      err := conn.HandleRequest(req);
    }

    /** ServeConn: peek one byte, route on it, close the connection on every
        exit. */
    method ServeConn(conn: Conn) returns (err: Option<Error>)
      modifies conn`trace
      ensures conn.trace == old(conn.trace) + ServeRun(authMethods, conn.pending, conn.env).events
      ensures err == ServeRun(authMethods, conn.pending, conn.env).result
    {
      var b := conn.Peek();
      if b.Err? {
        conn.Close();
        return Some(b.error);
      }
      if b.value == VersionSocks5 {
        conn.Route(SocksPath);
        err := HandleSocksRequest(conn);
      } else {
        conn.Route(HttpPath);
        err := conn.BridgeHttp();
      }
      conn.Close();
    }
  }
}
