/** What the server promises about its decisions, stated on the functions
    that the Server methods are proved to follow. */
module ServerProperties {
  import opened Statute
  import opened Socks5

  // ---------------------------------------------------------------------
  // Reading a trace

  /** Everything `pick` extracts from the events, in trace order. */
  function Collect<T>(events: seq<Event>, pick: Event -> seq<T>): seq<T>
  {
    if events == [] then [] else pick(events[0]) + Collect(events[1..], pick)
  }

  lemma {:induction false} CollectAppend<T>(a: seq<Event>, b: seq<Event>, pick: Event -> seq<T>)
    ensures Collect(a + b, pick) == Collect(a, pick) + Collect(b, pick)
  {
    if a == [] {
      assert a + b == b;
    } else {
      assert (a + b)[0] == a[0];
      assert (a + b)[1..] == a[1..] + b;
      CollectAppend(a[1..], b, pick);
    }
  }

  lemma CollectSingle<T>(e: Event, pick: Event -> seq<T>)
    ensures Collect([e], pick) == pick(e)
  {
  }

  function InvocationOf(e: Event): seq<Authenticator>
  {
    if e.Invoked? then [e.auth] else []
  }

  function ReplyOf(e: Event): seq<byte>
  {
    if e.Replied? then [e.rep] else []
  }

  function DispatchOf(e: Event): seq<Request>
  {
    if e.Dispatched? then [e.request] else []
  }

  function CloseOf(e: Event): seq<Event>
  {
    if e.Closed? then [e] else []
  }

  /** The authenticators invoked, in order. */
  function Invocations(events: seq<Event>): seq<Authenticator>
  {
    Collect(events, InvocationOf)
  }

  /** The reply codes sent with SendReply, in order. */
  function Replies(events: seq<Event>): seq<byte>
  {
    Collect(events, ReplyOf)
  }

  /** The requests handed to handleRequest, in order. */
  function Dispatches(events: seq<Event>): seq<Request>
  {
    Collect(events, DispatchOf)
  }

  function Closes(events: seq<Event>): seq<Event>
  {
    Collect(events, CloseOf)
  }

  lemma CollectShort<T>(rest: seq<Event>, pick: Event -> seq<T>)
    requires |rest| <= 2
    ensures Collect(rest, pick) == (if |rest| > 0 then pick(rest[0]) else [])
                                 + (if |rest| > 1 then pick(rest[1]) else [])
  {
  }

  /** Collect over the traces handleSocksRequest produces: two steps and at
      most two more. */
  lemma CollectSteps<T>(e0: Event, e1: Event, rest: seq<Event>, pick: Event -> seq<T>)
    requires |rest| <= 2
    ensures Collect([e0] + [e1] + rest, pick)
         == pick(e0) + pick(e1) + (if |rest| > 0 then pick(rest[0]) else [])
                                + (if |rest| > 1 then pick(rest[1]) else [])
  {
    CollectAppend([e0] + [e1], rest, pick);
    CollectAppend([e0], [e1], pick);
    CollectSingle(e0, pick);
    CollectSingle(e1, pick);
    CollectShort(rest, pick);
  }

  // ---------------------------------------------------------------------
  // Construction: NewServer

  /** Options apply one after another, each seeing what the earlier ones set. */
  lemma {:induction false} ApplyOptionsAppend(s: Settings, a: seq<ServerOption>, b: seq<ServerOption>)
    ensures ApplyOptions(s, a + b) == ApplyOptions(ApplyOptions(s, a), b)
  {
    if b == [] {
      assert a + b == a;
    } else {
      var b' := b[..|b| - 1];
      assert (a + b)[..|a + b| - 1] == a + b';
      assert (a + b)[|a + b| - 1] == b[|b| - 1];
      ApplyOptionsAppend(s, a, b');
    }
  }

  /** The three outcomes of the defaulting step. */
  lemma EnsureAuthMethodsCases(s: Settings)
    ensures |s.authMethods| > 0 ==> EnsureAuthMethods(s) == s
    ensures |s.authMethods| == 0 && s.credentials.Some? ==>
      EnsureAuthMethods(s).authMethods == [UserPassAuthenticator(s.credentials.value)]
    ensures |s.authMethods| == 0 && s.credentials.None? ==>
      EnsureAuthMethods(s).authMethods == [NoAuthAuthenticator]
  {
  }

  /** A server built without options offers exactly no-auth. */
  lemma NewServerWithoutOptions()
    ensures EnsureAuthMethods(ApplyOptions(InitialSettings(), [])).authMethods == [NoAuthAuthenticator]
  {
  }

  /** Since a server always holds an authenticator, some client offer is
      always accepted: one naming the code of the server's first choice. */
  lemma DefaultedServerAcceptsItsFirstMethod(s: Settings, userAddr: string, env: Environment)
    ensures var auths := EnsureAuthMethods(s).authMethods;
      AuthRun(auths, [auths[0].GetCode()], userAddr, env).events == [Invoked(auths[0], userAddr)]
  {
  }

  // ---------------------------------------------------------------------
  // Method selection: authenticate

  /** The first configured authenticator whose code the client offered is the
      one invoked, once, and its result is returned unchanged. */
  lemma AuthenticateInvokesFirstOffered(auths: seq<Authenticator>, offered: seq<byte>, userAddr: string,
                                        env: Environment, k: nat)
    requires k < |auths| && auths[k].GetCode() in offered
    requires forall j :: 0 <= j < k ==> auths[j].GetCode() !in offered
    ensures AuthRun(auths, offered, userAddr, env)
         == Run([Invoked(auths[k], userAddr)], env.authenticate(auths[k], userAddr))
    ensures Invocations(AuthRun(auths, offered, userAddr, env).events) == [auths[k]]
  {
    CollectSingle(Invoked(auths[k], userAddr), InvocationOf);
  }

  /** When no configured code was offered, exactly 0x05 0xFF is written, the
      result is ErrNoSupportedAuth and no authenticator runs. */
  lemma AuthenticateNoAcceptable(auths: seq<Authenticator>, offered: seq<byte>, userAddr: string,
                                 env: Environment)
    requires forall j :: 0 <= j < |auths| ==> auths[j].GetCode() !in offered
    ensures AuthRun(auths, offered, userAddr, env)
         == Run([Wrote([VersionSocks5, MethodNoAcceptable])], Err(NoSupportedAuth))
    ensures Invocations(AuthRun(auths, offered, userAddr, env).events) == []
  {
    CollectSingle(Wrote([VersionSocks5, MethodNoAcceptable]), InvocationOf);
  }

  /** Only which codes the client offered matters, not their order or
      repetition: the server's preference decides. */
  lemma SelectMethodIgnoresOfferOrder(auths: seq<Authenticator>, o1: seq<byte>, o2: seq<byte>)
    requires forall b :: b in o1 <==> b in o2
    ensures SelectMethod(auths, o1) == SelectMethod(auths, o2)
  {
  }

  // ---------------------------------------------------------------------
  // Routing: ServeConn

  lemma RouteIsVersionTest(b: byte)
    ensures Route(b) == SocksPath <==> b == VersionSocks5
  {
  }

  /** A peek failure is returned as it is, and neither path is taken. */
  lemma PeekErrorTakesNoPath(auths: seq<Authenticator>, env: Environment)
    ensures ServeRun(auths, [], env) == Run([Closed], Some(env.peekError))
  {
  }

  /** The path depends on the first byte alone, and the chosen path starts
      with the whole input, that byte included. */
  lemma RoutesOnFirstByte(auths: seq<Authenticator>, pending: seq<byte>, env: Environment)
    requires pending != []
    ensures ServeRun(auths, pending, env).events[0] == Routed(Route(pending[0]), pending)
    ensures pending[0] == VersionSocks5 ==>
      ServeRun(auths, pending, env).result == SocksRun(auths, env).result
    ensures pending[0] != VersionSocks5 ==>
      ServeRun(auths, pending, env) == Run([Routed(HttpPath, pending), Bridged, Closed], env.bridge)
  {
  }

  /** handleSocksRequest never closes the connection itself. */
  lemma SocksRunNeverCloses(auths: seq<Authenticator>, env: Environment)
    ensures Closes(SocksRun(auths, env).events) == []
  {
  }

  /** The connection is closed exactly once, as the last step, on every path. */
  lemma ClosedOnceAtEnd(auths: seq<Authenticator>, pending: seq<byte>, env: Environment)
    ensures var ev := ServeRun(auths, pending, env).events;
      |ev| > 0 && ev[|ev| - 1] == Closed && Closes(ev) == [Closed]
  {
    var ev := ServeRun(auths, pending, env).events;
    if pending == [] {
      CollectSingle(Closed, CloseOf);
    } else if Route(pending[0]) == SocksPath {
      var s := SocksRun(auths, env).events;
      SocksRunNeverCloses(auths, env);
      CollectAppend([Routed(SocksPath, pending)] + s, [Closed], CloseOf);
      CollectAppend([Routed(SocksPath, pending)], s, CloseOf);
      CollectSingle(Routed(SocksPath, pending), CloseOf);
      CollectSingle(Closed, CloseOf);
    } else {
      assert ev == [Routed(HttpPath, pending)] + [Bridged] + [Closed];
      CollectSteps(Routed(HttpPath, pending), Bridged, [Closed], CloseOf);
    }
  }

  // ---------------------------------------------------------------------
  // The session: handleSocksRequest

  /** Order of the session's steps: method negotiation, authentication,
      request parsing, then one reply or one dispatch. */
  function Stage(e: Event): nat
  {
    match e
    case ReadMethods => 0
    case Invoked(_, _) => 1
    case Wrote(_) => 1
    case ReadRequest => 2
    case _ => 3
  }

  /** Steps happen in strictly increasing stage: none is repeated and none
      runs before an earlier one. */
  lemma StepsInOrder(auths: seq<Authenticator>, env: Environment)
    ensures var ev := SocksRun(auths, env).events;
      forall i, j :: 0 <= i < j < |ev| ==> Stage(ev[i]) < Stage(ev[j])
  {
  }

  /** A failed authentication ends the session before the request is read:
      no request, no reply, no dispatch. */
  lemma AuthFailureStopsBeforeRequest(auths: seq<Authenticator>, env: Environment)
    requires env.methodRequest.Ok?
    requires AuthRun(auths, env.methodRequest.value, UserAddr(env.remoteAddr), env).result.Err?
    ensures var a := AuthRun(auths, env.methodRequest.value, UserAddr(env.remoteAddr), env);
      SocksRun(auths, env) == Run([ReadMethods] + a.events, Some(Wrapped(FailedToAuthenticate, a.result.error)))
    ensures ReadRequest !in SocksRun(auths, env).events
    ensures Replies(SocksRun(auths, env).events) == [] && Dispatches(SocksRun(auths, env).events) == []
  {
    var a := AuthRun(auths, env.methodRequest.value, UserAddr(env.remoteAddr), env);
    assert a.events == [a.events[0]] && !a.events[0].Replied? && !a.events[0].Dispatched?;
    assert SocksRun(auths, env).events == [ReadMethods] + [a.events[0]] + [];
    CollectSteps(ReadMethods, a.events[0], [], ReplyOf);
    CollectSteps(ReadMethods, a.events[0], [], DispatchOf);
  }

  /** A request that does not parse gets reply 0x08 exactly when its error is
      an unrecognized address type, and the session always fails. */
  lemma ParseErrorReply(auths: seq<Authenticator>, env: Environment)
    requires env.methodRequest.Ok?
    requires AuthRun(auths, env.methodRequest.value, UserAddr(env.remoteAddr), env).result.Ok?
    requires env.request.Err?
    ensures var ev := SocksRun(auths, env).events;
      Replies(ev) == (if Is(env.request.error, UnrecognizedAddrType) then [RepAddrTypeNotSupported] else [])
      && Dispatches(ev) == []
    ensures SocksRun(auths, env).result.Some?
    ensures env.replyError.None? || !Is(env.request.error, UnrecognizedAddrType) ==>
      SocksRun(auths, env).result == Some(Wrapped(FailedToReadDestination, env.request.error))
  {
    var a := AuthRun(auths, env.methodRequest.value, UserAddr(env.remoteAddr), env);
    var ev := SocksRun(auths, env).events;
    assert a.events == [a.events[0]] && !a.events[0].Replied? && !a.events[0].Dispatched?;
    assert ev == [ReadMethods] + [a.events[0]] + ev[2..];
    CollectSteps(ReadMethods, a.events[0], ev[2..], ReplyOf);
    CollectSteps(ReadMethods, a.events[0], ev[2..], DispatchOf);
  }

  /** A command outside CONNECT, BIND and UDP ASSOCIATE gets one reply 0x07,
      is never dispatched, and fails with an error naming the command (or,
      when the reply cannot be sent, the send error). */
  lemma UnsupportedCommandRejected(auths: seq<Authenticator>, env: Environment)
    requires env.methodRequest.Ok?
    requires AuthRun(auths, env.methodRequest.value, UserAddr(env.remoteAddr), env).result.Ok?
    requires env.request.Ok? && !IsSupportedCommand(env.request.value.command)
    ensures var ev := SocksRun(auths, env).events;
      Replies(ev) == [RepCommandNotSupported] && Dispatches(ev) == []
    ensures env.replyError.None? ==>
      SocksRun(auths, env).result == Some(UnrecognizedCommand(env.request.value.command))
    ensures env.replyError.Some? ==>
      SocksRun(auths, env).result == Some(Described(FailedToSendReply, env.replyError.value))
  {
    var a := AuthRun(auths, env.methodRequest.value, UserAddr(env.remoteAddr), env);
    var ev := SocksRun(auths, env).events;
    assert a.events == [a.events[0]] && !a.events[0].Replied? && !a.events[0].Dispatched?;
    assert ev == [ReadMethods] + [a.events[0]] + ev[2..];
    CollectSteps(ReadMethods, a.events[0], ev[2..], ReplyOf);
    CollectSteps(ReadMethods, a.events[0], ev[2..], DispatchOf);
  }

  /** handleRequest is reached exactly when methods, authentication and the
      request all succeed and the command is supported; the request it gets
      carries the authentication context and the socket's two addresses, and
      its result is the session's result. */
  lemma DispatchedRequestIsStamped(auths: seq<Authenticator>, env: Environment)
    ensures var ev := SocksRun(auths, env).events;
      var reached := env.methodRequest.Ok?
        && AuthRun(auths, env.methodRequest.value, UserAddr(env.remoteAddr), env).result.Ok?
        && env.request.Ok? && IsSupportedCommand(env.request.value.command);
      |Dispatches(ev)| <= 1 && (|Dispatches(ev)| == 1 <==> reached)
    ensures var ev := SocksRun(auths, env).events;
      forall req :: req in Dispatches(ev) ==>
        var ctx := AuthRun(auths, env.methodRequest.value, UserAddr(env.remoteAddr), env).result.value;
        && req == Stamp(env.request.value, ctx, env)
        && req.authContext == ctx
        && req.localAddr == env.localAddr && req.remoteAddr == env.remoteAddr
        && req.command == env.request.value.command && req.destAddr == env.request.value.destAddr
        && SocksRun(auths, env).result == env.handleRequest(req)
  {
    var ev := SocksRun(auths, env).events;
    if env.methodRequest.Err? {
      CollectSingle(ReadMethods, DispatchOf);
    } else {
      var a := AuthRun(auths, env.methodRequest.value, UserAddr(env.remoteAddr), env);
      assert a.events == [a.events[0]] && !a.events[0].Dispatched?;
      assert ev == [ReadMethods] + [a.events[0]] + ev[2..];
      CollectSteps(ReadMethods, a.events[0], ev[2..], DispatchOf);
    }
  }

  /** handleSocksRequest runs the authenticator method selection picks, and
      no other, once the methods were read. */
  lemma SocksRunInvokesSelected(auths: seq<Authenticator>, env: Environment)
    ensures Invocations(SocksRun(auths, env).events)
         == if env.methodRequest.Ok? && SelectMethod(auths, env.methodRequest.value).Some?
            then [auths[SelectMethod(auths, env.methodRequest.value).value]]
            else []
    ensures forall e :: e in SocksRun(auths, env).events && e.Invoked? ==>
      e.userAddr == if env.remoteAddr.Some? then env.remoteAddr.value.address else ""
  {
    var s := SocksRun(auths, env).events;
    if env.methodRequest.Err? {
      CollectSingle(ReadMethods, InvocationOf);
    } else {
      var a := AuthRun(auths, env.methodRequest.value, UserAddr(env.remoteAddr), env);
      assert a.events == [a.events[0]];
      assert s == [ReadMethods] + [a.events[0]] + s[2..];
      assert forall i :: 0 <= i < |s[2..]| ==> !s[2..][i].Invoked?;
      CollectSteps(ReadMethods, a.events[0], s[2..], InvocationOf);
    }
  }

  /** At most one authenticator runs on a connection: the one method
      selection picks, on the SOCKS path, after the methods were read. */
  lemma AtMostOneAuthenticatorRuns(auths: seq<Authenticator>, pending: seq<byte>, env: Environment)
    ensures Invocations(ServeRun(auths, pending, env).events)
         == if pending != [] && pending[0] == VersionSocks5 && env.methodRequest.Ok?
               && SelectMethod(auths, env.methodRequest.value).Some?
            then [auths[SelectMethod(auths, env.methodRequest.value).value]]
            else []
  {
    var ev := ServeRun(auths, pending, env).events;
    if pending == [] {
      CollectSingle(Closed, InvocationOf);
    } else if Route(pending[0]) == HttpPath {
      assert ev == [Routed(HttpPath, pending)] + [Bridged] + [Closed];
      CollectSteps(Routed(HttpPath, pending), Bridged, [Closed], InvocationOf);
    } else {
      var s := SocksRun(auths, env).events;
      CollectAppend([Routed(SocksPath, pending)] + s, [Closed], InvocationOf);
      CollectAppend([Routed(SocksPath, pending)], s, InvocationOf);
      CollectSingle(Routed(SocksPath, pending), InvocationOf);
      CollectSingle(Closed, InvocationOf);
      SocksRunInvokesSelected(auths, env);
    }
  }

  // ---------------------------------------------------------------------
  // Scenarios

  /** A client offering no-auth to a server built without options and asking
      CONNECT 93.184.216.34:80 reaches the CONNECT handler with that request
      and an authentication context. */
  lemma NoAuthConnectScenario(env: Environment, ctx: AuthContext, req: Request)
    requires env.methodRequest == Ok([MethodNoAuth])
    requires env.authenticate(NoAuthAuthenticator, UserAddr(env.remoteAddr)) == Ok(Some(ctx))
    requires req.command == CommandConnect
    requires req.destAddr == AddrSpec(IPv4([93, 184, 216, 34]), 80)
    requires env.request == Ok(req)
    ensures var auths := EnsureAuthMethods(ApplyOptions(InitialSettings(), [])).authMethods;
      var ev := ServeRun(auths, [VersionSocks5, 1, MethodNoAuth], env).events;
      Dispatches(ev) == [Stamp(req, Some(ctx), env)]
      && Dispatches(ev)[0].command == CommandConnect
      && Dispatches(ev)[0].destAddr == AddrSpec(IPv4([93, 184, 216, 34]), 80)
      && Dispatches(ev)[0].authContext.Some?
  {
    var auths := EnsureAuthMethods(ApplyOptions(InitialSettings(), [])).authMethods;
    var pending: seq<byte> := [VersionSocks5, 1, MethodNoAuth];
    var s := SocksRun(auths, env).events;
    assert auths == [NoAuthAuthenticator];
    assert SelectMethod(auths, [MethodNoAuth]) == Some(0);
    assert s == [ReadMethods] + [Invoked(NoAuthAuthenticator, UserAddr(env.remoteAddr))]
                              + [ReadRequest, Dispatched(Stamp(req, Some(ctx), env))];
    CollectSteps(ReadMethods, Invoked(NoAuthAuthenticator, UserAddr(env.remoteAddr)),
                 [ReadRequest, Dispatched(Stamp(req, Some(ctx), env))], DispatchOf);
    CollectAppend([Routed(SocksPath, pending)] + s, [Closed], DispatchOf);
    CollectAppend([Routed(SocksPath, pending)], s, DispatchOf);
    CollectSingle(Routed(SocksPath, pending), DispatchOf);
    CollectSingle(Closed, DispatchOf);
  }

  /** A TLS ClientHello (first byte 0x16) goes to the HTTP bridge, with the
      byte still unread. */
  lemma TlsClientHelloIsBridged(auths: seq<Authenticator>, rest: seq<byte>, env: Environment)
    ensures ServeRun(auths, [0x16] + rest, env).events == [Routed(HttpPath, [0x16] + rest), Bridged, Closed]
  {
  }
}
