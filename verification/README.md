# SOCKS5 session decisions, modelled in Dafny

A model of the connection-handling decisions of the bepass SOCKS5 server
(`socks5/server.go`): how `NewServer` makes sure an authenticator is
installed, how `authenticate` picks the authentication method (section 3 of
RFC 1928, in the server's order of preference), how `ServeConn` sends a
connection down the SOCKS5 path or the HTTP bridge path on its first byte,
and the fixed order of `handleSocksRequest`: read the offered methods,
authenticate, read the request, check the command, stamp the request,
dispatch. Along the way it sends reply 0x08 "address type not supported" and
reply 0x07 "command not supported" (section 6 of RFC 1928).

Files:

- `statute.dfy` (module `Statute`): the protocol constants. The statute
  package that defines them is not part of this model. The values are the
  ones RFC 1928 assigns: version 0x05, methods 0x00 / 0x02 / 0xFF, commands
  0x01 / 0x02 / 0x03, replies 0x07 / 0x08.
- `server.dfy` (module `Socks5`): the data (authenticators, errors with Go's
  `%w` / `%v` wrapping and `errors.Is`, requests, trace events). It also holds
  the functions that say what each operation does (`SelectMethod`, `AuthRun`,
  `SocksRun`, `ServeRun`, `EnsureAuthMethods`), and two classes:
  - `Server`: the constructor plays the part of `NewServer`, and the
    methods `Authenticate`, `HandleSocksRequest` and `ServeConn` are proved
    to follow those functions.
  - `Conn`: the client connection. It holds the unread input, the trace of
    everything the server did on it, and the `Environment`.
- `properties.dfy` (module `ServerProperties`): the lemmas.

How the outside world is modelled: the collaborators are not modelled. These
are `ParseMethodRequest`, `ParseRequest`, `SendReply`,
`Authenticator.Authenticate`, `handleRequest`, `handleHTTPRequest` and the
peek error. What they report on a connection is a parameter: the
connection's `Environment`. Every call the server makes to them appends an
event to the connection's `trace`, so the trace shows what was invoked, what
was written, which replies went out, and in what order.

## Model

| member | source | states |
|---|---|---|
| `Socks5.Server.constructor` | socks5/server.go:68-95 | the server's authenticators and credentials, fixed once built, are the options applied in order to the empty configuration, then defaulted; the authenticator list is never empty |
| `Socks5.EnsureAuthMethods` | socks5/server.go:86-92 | after defaulting, at least one authenticator is installed, and the credential store is unchanged |
| `ServerProperties.EnsureAuthMethodsCases` | socks5/server.go:87-92 | a non-empty configured list is kept as it is; an empty one becomes exactly `[UserPassAuthenticator(store)]` when a credential store is set, and exactly `[NoAuthAuthenticator]` otherwise |
| `ServerProperties.ApplyOptionsAppend` | socks5/server.go:82-84 | options apply in sequence: applying `a + b` is applying `a`, then `b` to the result |
| `ServerProperties.NewServerWithoutOptions` | socks5/server.go:71-92 | a server built with no options holds exactly the no-auth authenticator |
| `ServerProperties.DefaultedServerAcceptsItsFirstMethod` | socks5/server.go:86-92 | because the list is never empty, a client offering the code of the server's first authenticator gets that authenticator invoked |
| `Socks5.SelectMethod` | socks5/server.go:263-269 | the selected index is the first authenticator in server order whose code is anywhere in the client's list; none is selected exactly when no configured code was offered |
| `ServerProperties.SelectMethodIgnoresOfferOrder` | socks5/server.go:263-265 | the choice depends only on which codes the client offered, not on their order or repetition |
| `Socks5.Server.Authenticate` | socks5/server.go:260-273 | the nested scan appends to the trace, and returns, exactly what `AuthRun` says: invoke the selected authenticator and return its result, or write the no-acceptable-methods bytes and fail |
| `ServerProperties.AuthenticateInvokesFirstOffered` | socks5/server.go:263-267 | when authenticator k is the first whose code was offered, it is invoked exactly once and alone, with the client address, and its result is returned unchanged |
| `ServerProperties.AuthenticateNoAcceptable` | socks5/server.go:270-272 | when no configured code was offered, the only step is writing exactly `[0x05, 0xFF]`, the result is `ErrNoSupportedAuth`, and no authenticator runs |
| `Socks5.Conn.Peek` | socks5/server.go:176-181 | the peek returns the first unread byte without consuming it, or the read error when no byte is available |
| `ServerProperties.RouteIsVersionTest` | socks5/server.go:183-188 | the SOCKS5 path is chosen exactly when the first byte is the version byte 0x05 |
| `ServerProperties.PeekErrorTakesNoPath` | socks5/server.go:178-181 | a peek failure returns that error, takes neither path, and the connection is only closed |
| `ServerProperties.RoutesOnFirstByte` | socks5/server.go:176-188 | the chosen path is decided by the first byte and receives the whole input, with the peeked byte still unread; 0x05 yields the SOCKS5 session's result, and any other byte goes only to the HTTP bridge |
| `ServerProperties.TlsClientHelloIsBridged` | socks5/server.go:183-188 | a connection starting with 0x16 (a TLS ClientHello) is bridged to HTTP with that byte unread |
| `Socks5.Server.ServeConn` | socks5/server.go:173-189 | the steps taken on the connection and the error returned are those of `ServeRun` |
| `ServerProperties.SocksRunNeverCloses` | socks5/server.go:214-257 | the SOCKS5 session itself never closes the connection |
| `ServerProperties.ClosedOnceAtEnd` | socks5/server.go:174 | on every path, the connection is closed exactly once, as the last step |
| `Socks5.IsSupportedCommand` | socks5/server.go:243-245 | a command is accepted exactly when it is CONNECT, BIND or UDP ASSOCIATE, that is, 0x01 to 0x03 |
| `Socks5.Server.HandleSocksRequest` | socks5/server.go:214-257 | the steps taken on the connection and the error returned are those of `SocksRun` |
| `ServerProperties.StepsInOrder` | socks5/server.go:217-256 | steps happen in strictly increasing order and none repeats: methods, then authentication, then the request, then one reply or one dispatch |
| `ServerProperties.AuthFailureStopsBeforeRequest` | socks5/server.go:227-230 | a failed authentication returns "failed to authenticate" wrapping the cause; the request is never read, and no reply or dispatch happens |
| `ServerProperties.ParseErrorReply` | socks5/server.go:233-241 | a request parse error gets reply 0x08 exactly when the error is, or wraps, an unrecognized address type, and no reply otherwise; an error is always returned, and nothing is dispatched |
| `ServerProperties.UnsupportedCommandRejected` | socks5/server.go:243-250 | a command outside 0x01 to 0x03 gets exactly one reply, 0x07, and is never dispatched; the error names the command, or is the send error when the reply could not be sent |
| `ServerProperties.DispatchedRequestIsStamped` | socks5/server.go:252-256 | `handleRequest` is reached at most once, and exactly when methods, authentication and request succeed and the command is supported; the request carries the authentication context exactly as `authenticate` returned it (a nil context included) and the socket's local and remote addresses, and its result is the session's result |
| `ServerProperties.SocksRunInvokesSelected` | socks5/server.go:217-230 | a SOCKS5 session invokes the selected authenticator, and no other, after the methods were read, passing it the remote address's string, or `""` when the socket reports no remote address |
| `ServerProperties.AtMostOneAuthenticatorRuns` | socks5/server.go:183-188 | over a whole connection, at most one authenticator runs: the selected one, and only on the SOCKS5 path |
| `ServerProperties.NoAuthConnectScenario` | socks5/server.go:214-256 | a client offering no-auth to a server built without options, asking CONNECT to 93.184.216.34:80, reaches `handleRequest` with that command and address and the authentication context the no-auth authenticator returned |

## Left out

- `ListenAndServe` (socks5/server.go:98-139) is not modelled. It is listener setup, the goproxy HTTP engine and a first-error-wins race between two goroutines.
- `Serve` and `Shutdown` (socks5/server.go:142-170) are not modelled. They are the accept loop, the `done` channel and the listener close, which is concurrency.
- `goFunc` (socks5/server.go:275-279) is not modelled. It submits to a goroutine pool with a `go f()` fallback, which is scheduling only.
- `handleHTTPRequest` (socks5/server.go:191-212) is an abstract outcome (`Environment.bridge`), because its two copy goroutines are byte plumbing. It defers `dstConn.Close()` before the dial error is checked (socks5/server.go:192-196); on a failed dial `dstConn` is nil and that call panics instead of returning the error, and nothing recovers the panic in the connection goroutine. The model's HTTP path always returns `env.bridge` and does not capture the panic. It also blocks forever when both copies end without error, which is not modelled either.
- `statute.ParseMethodRequest`, `ParseRequest`, `SendReply` and `handleRequest` are not part of this model. Their results are given by the `Environment`. The bytes they consume from the input are not modelled, and a reply is recorded by its reply code, not by its encoded frame.
- Authenticator internals, the credential store, resolver, rules, rewriter, buffer pool and logger are not modelled. Only an authenticator's code, its identity and the result it reports are kept.
- Options are closures over the two settings that matter here: the authenticator list and the credential store. Their effect on the other server fields is not modelled.
- Request stamping (socks5/server.go:252-254) is a record update, not an in-place field assignment on a shared `*Request`. The parsed request is not visible to anyone else before dispatch, so no aliasing is lost.
- The error returned for `conn.Write` in `authenticate` is ignored in the source. The model's `Conn.Write` therefore never fails.
- The command-not-supported error names the command only when the reply was sent. If `SendReply` fails, the source returns the `%v`-formatted send error instead (socks5/server.go:246-249). The model follows the code.
