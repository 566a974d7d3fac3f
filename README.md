# BdtTunnel client core and test echo session, in Dafny

BdtTunnel carries TCP connections over a remoting tunnel, typically through an
HTTP proxy. This project models two parts of it and proves properties of them.

**The echo session of the socket tests** (module `Sockets`, `echo_session.dfy`)
is a background pump. It polls one local socket and writes back whatever it reads.
Its polling interval adapts to traffic:

- any cycle that reads data resets the interval to the 10 ms floor;
- each idle cycle grows it by a factor of 1.1, capped at 5000 ms;
- the sleep before the next cycle is shortened by the time the previous cycle took.

The pump stops when its event is set. That happens through the error handler,
or when the probe finds the peer gone (the socket polls readable with nothing
available). The session then disconnects exactly once (unless the duration conversion overflows; see "## Left out").

The model has two layers:

- `Step` and `Run` are the specification: the loop as a function over a trace
  of per-cycle socket observations.
- The class `EchoSession` is the imperative code. It keeps the read buffer, the
  two loop variables and the event flag. Its methods are proved equal to the
  specification.

**The tunnel client's orchestration** (module `Runtime`, `bdt_client.dfy`) covers:

- the table of local listeners, keyed by local port;
- registration of port forwards and then of the SOCKS server, where the first
  registration of a port wins and every later one logs a warning;
- disposal of all listeners;
- the console line editor used for proxy credentials;
- startup: a connect loop that retries after HTTP 407 Proxy Authentication
  Required when the protocol is proxy-compatible, then a version check, a
  login, and listener setup when there are no command-line arguments;
- shutdown: dispose the listeners, log out when there is a tunnel and a
  session, and reset.

The tunnel's answers and the key presses are inputs. What the client logs,
sends and closes is recorded in fields of the class `BdtClient`. Its methods
are proved against the specification functions `AddForwards`, `AddSocks`,
`Typed`, `ConnectOutcome` and `StartOutcome`. Lemmas state what those functions
guarantee.

`Shared` (`shared.dfy`) holds the optional value, the byte type and the
response records of the tunnel's request/response contract.

Two behaviours of the code differ from what a reader might expect. The model follows the code:

- `WaitTime` skips the sleep only when the previous cycle took strictly longer
  than the interval (`adjpolltime > polltime`). On a tie it still sleeps the
  10 ms floor.
- In `StopClient` the logout sits in a `try`/`finally` with no `catch`. An
  exception from Logout therefore propagates: the tunnel, the session and the
  protocol configuration are not reset, although the listeners are already
  disposed.

The cycle durations come from the wall clock (`DateTime.Now`), so a clock set
backwards yields a negative duration. `WaitTime` can then return more than the
5000 ms ceiling (when the duration is below polltime − 5000 ms). `Sockets.SleepBounds` therefore assumes non-negative durations.

## Model

| member | source | states |
|---|---|---|
| `Sockets.WaitTime` | BdtTests/Sockets/EchoSession.cs:101-111 | no sleep exactly when the last cycle took longer than the interval; otherwise at least the 10 ms floor and at least what is left of the interval, and equal to one of the two; a tie sleeps the floor; never more than the interval when durations are non-negative |
| `Sockets.Grow` | BdtTests/Sockets/EchoSession.cs:171-176 | an idle cycle keeps the interval within [10, 5000], never shrinks it, strictly grows it below the ceiling, and yields either the grown value or the ceiling |
| `Sockets.Step` | BdtTests/Sockets/EchoSession.cs:127-183 | one cycle keeps the interval within bounds, records the cycle's duration, never clears the event, and only appends to the bytes written back |
| `Sockets.Run` | BdtTests/Sockets/EchoSession.cs:125-184 | the loop runs cycles while the event is clear; the interval stays within bounds, the output only grows, and a set event stays set |
| `Sockets.CycleLaws` | BdtTests/Sockets/EchoSession.cs:133-182 | per cycle: a lost peer or a throwing probe sets the event; an idle cycle grows the interval; an echo cycle resets it to the floor and writes back exactly the bytes read; an empty read changes nothing; a failed read sets the event and keeps the interval |
| `Sockets.IdleBackoff` | BdtTests/Sockets/EchoSession.cs:171-176 | a run of idle cycles never sets the event and echoes nothing; the interval never shrinks, and grows by at least one millisecond per cycle until the 5000 ms ceiling |
| `Sockets.BackoffThenReset` | BdtTests/Sockets/EchoSession.cs:156-176 | after any number of idle cycles, the first echo cycle brings the interval back to 10 ms and writes back exactly the bytes it read |
| `Sockets.EchoPreservesOrder` | BdtTests/Sockets/EchoSession.cs:143-169 | a run of echo cycles writes back every byte read, in the order read, and leaves the interval at the floor |
| `Sockets.PeerGoneEndsLoop` | BdtTests/Sockets/EchoSession.cs:133-182 | once a cycle finds the peer gone or its probe throws, the event is set and no further cycle runs |
| `Sockets.SleepBounds` | BdtTests/Sockets/EchoSession.cs:101-125 | with non-negative cycle durations, every sleep the loop computes is zero or between 10 and 5000 ms |
| `Sockets.EchoSession.constructor` | BdtTests/Sockets/EchoSession.cs:55-63 | a new session holds a client and its stream, with the event clear and nothing written |
| `Sockets.EchoSession.HandleError` | BdtTests/Sockets/EchoSession.cs:84-91 | the error handler sets the event |
| `Sockets.EchoSession.RunCycle` | BdtTests/Sockets/EchoSession.cs:127-183 | the loop body, through the shared read buffer, changes the interval, the event and the output exactly as `Step` does |
| `Sockets.EchoSession.CommunicationThread` | BdtTests/Sockets/EchoSession.cs:119-186 | started on a session that holds its client, the thread ends with the event and output `Run` gives from the 10 ms start; when the event is set the session is disconnected, otherwise every observed cycle ran and nothing was closed |
| `Sockets.EchoSession.Disconnect` | BdtTests/Sockets/EchoSession.cs:194-203 | closes the stream and the client once, only when the client is still held, and leaves both released; a second call closes nothing |
| `Runtime.ValuesListEachEntryOnce` | BdtClient/Runtime/BdtClient.cs:147-150 | enumerating the listener table yields every listener, nothing else, and none twice |
| `Runtime.FirstEnabled` | BdtClient/Runtime/BdtClient.cs:95-111 | the first enabled forward on a port: it is enabled on that port and no earlier enabled forward shares the port; absent exactly when no enabled forward uses the port |
| `Runtime.FirstRegistrationWins` | BdtClient/Runtime/BdtClient.cs:95-113 | after registering forwards, a port is bound exactly when it was bound before or some enabled forward uses it; a bound port keeps its listener, and a new port gets the gateway of its first enabled forward |
| `Runtime.ForwardsRegistered` | BdtClient/Runtime/BdtClient.cs:95-113 | registration never drops or replaces a listener, binds the port of every enabled forward, and binds no port that no enabled forward names |
| `Runtime.ForwardsKeepTableValid` | BdtClient/Runtime/BdtClient.cs:103-111 | registration keeps the table a dictionary whose keys are listed once and whose listeners sit under their own port, and keeps earlier ports first in enumeration order |
| `Runtime.EveryEnabledForwardAccountedFor` | BdtClient/Runtime/BdtClient.cs:97-111 | each enabled forward either binds a new port or logs one FORWARD_CANCELED warning: new ports plus warnings equal the enabled forwards |
| `Runtime.ForwardsBeforeSocks` | BdtClient/Runtime/BdtClient.cs:350-356 | forwards are registered before the SOCKS server, so on the SOCKS port an earlier listener or the first enabled forward wins over the SOCKS server; other ports are bound exactly by earlier listeners and enabled forwards |
| `Runtime.ApplyKey` | BdtClient/Runtime/BdtClient.cs:247-264 | one key press either leaves the line, removes its last character, or appends the key's character; any key but Backspace appends its character exactly when it is a letter or digit and the line holds fewer than 32 characters, and otherwise leaves the line; a line of at most 32 letters and digits stays one |
| `Runtime.FirstEnter` | BdtClient/Runtime/BdtClient.cs:244-265 | the editor stops at the first Enter: no earlier key is Enter |
| `Runtime.TypedWellFormed` | BdtClient/Runtime/BdtClient.cs:258 | whatever keys are pressed, the line holds at most 32 characters, all letters or digits |
| `Runtime.BackspaceLaws` | BdtClient/Runtime/BdtClient.cs:248-256 | Backspace removes exactly the last character and does nothing on an empty line; it undoes a letter or digit typed on a line that was not full |
| `Runtime.EnterNotAppended` | BdtClient/Runtime/BdtClient.cs:257-265 | the Enter key that ends input adds nothing to the line |
| `Runtime.InputString` | BdtClient/Runtime/BdtClient.cs:234-269 | returns exactly when an Enter is pressed, consuming the keys up to and including the first Enter, and returns the line those keys type, which is at most 32 letters and digits |
| `Runtime.Retried` | BdtClient/Runtime/BdtClient.cs:306-331 | the connect loop repeats exactly over the leading passes that got HTTP 407 from a proxy-compatible protocol |
| `Runtime.ConnectLoopLaws` | BdtClient/Runtime/BdtClient.cs:306-334 | a protocol that is not proxy-compatible never retries; the loop is still running exactly when every pass asked for credentials; it yields a response exactly when the first pass that did not ask had a tunnel and an answer; it yields none exactly on a null answer or another HTTP error from a proxy-compatible protocol |
| `Runtime.ReadyExactlyAfterVersionAndLogin` | BdtClient/Runtime/BdtClient.cs:334-361 | a session is obtained exactly when, after the proxy retries, Version answers with success and Login succeeds |
| `Runtime.IndexOf` | BdtClient/Runtime/BdtClient.cs:336 | the first position at which the version string occurs, or -1 exactly when it occurs nowhere |
| `Runtime.BdtClient.constructor` | BdtClient/Runtime/BdtClient.cs:39-43 | a new client has an empty listener table, no tunnel and no session |
| `Runtime.BdtClient.InitializeForwards` | BdtClient/Runtime/BdtClient.cs:93-114 | the table becomes `AddForwards` of the old table and the warnings gain `ForwardWarnings`; the table stays well formed |
| `Runtime.BdtClient.InitializeSocks` | BdtClient/Runtime/BdtClient.cs:123-138 | the SOCKS server is added when it is enabled and its port is free; SOCKS_SERVER_DISABLED is logged when the port is taken |
| `Runtime.BdtClient.DisposeServers` | BdtClient/Runtime/BdtClient.cs:145-152 | every listener in the table is closed, in enumeration order, and the table is left empty |
| `Runtime.BdtClient.CloseServer` | BdtClient/Runtime/BdtClient.cs:149 | closing a listener records it as closed |
| `Runtime.BdtClient.InputProxyCredentials` | BdtClient/Runtime/BdtClient.cs:278-287 | each 407 prompts for proxy credentials once |
| `Runtime.BdtClient.Connect` | BdtClient/Runtime/BdtClient.cs:302-331 | the loop ends as `ConnectOutcome` says, prompts once per retried pass, and leaves in m_tunnel the tunnel of the last pass |
| `Runtime.BdtClient.StartClient` | BdtClient/Runtime/BdtClient.cs:294-367 | configures the protocol; the outcome is `StartOutcome`; the session is set only when ready; Login is sent exactly when Version succeeds; a version mismatch warns; listeners are set up only when ready with no command-line arguments; nothing is closed |
| `Runtime.BdtClient.StopClient` | BdtClient/Runtime/BdtClient.cs:374-398 | closes every listener and empties the table; sends Logout exactly when a tunnel and a session exist; when Logout throws the exception propagates and nothing is reset, otherwise tunnel, session and protocol configuration are reset |

## Left out

- Threads, the wall clock, sleeping and the sockets themselves are not modelled. Each iteration of the echo loop consumes one `Cycle` record of what Poll, Available, DataAvailable, Read and Write did and how long the cycle took. `WaitOne` becomes a test of the event flag, and the computed sleep is never taken.
- A trace that ends before the event is set stands for a thread that is still running. For the same reason, the connect loop and `InputString` return a "still waiting" result when their inputs run out.
- The growth `round(1.1 * polltime)` is floating-point. It is a parameter `grow`, and the model assumes only that it strictly increases every interval from 10 to 5000 ms. That holds of the real formula, but the model does not prove it.
- `Sockets.EchoSession.RunCycle`: a Write that throws is modelled as writing nothing. A partial write before the exception is not modelled.
- `Sockets.Step`: a cycle's duration is a 32-bit int. A cycle lasting more than about 24.9 days, or a wall-clock jump that large, makes `Convert.ToInt32` throw an OverflowException outside any `try`; the thread then ends with the event unset and without `Disconnect`. The model does not capture that ending: durations outside the 32-bit range are excluded by the type of `Cycle.elapsedMs`.
- `Sockets.WaitTime`: the 32-bit wrap-around of `polltime - adjpolltime` is not modelled. A cycle duration within polltime of -2^31 ms converts to an int without throwing; the subtraction then wraps to a negative number and the source sleeps the 10 ms floor, where the model returns `polltime - adjpolltime` (about 2^31).
- The 100 µs timeout the connectivity probe passes to `Socket.Poll` (`SOCKET_TEST_POLLING_TIME`) is not modelled, since the probe's answer is an input.
- The remaining members of EchoSession are the logging, which is dropped, and the thread start in the constructor, which is left to the caller.
- `Char.IsLetterOrDigit` is a parameter `isLetterOrDigit`. Unicode character classes are not modelled.
- Console output in `InputString` is not modelled: the prompt, cursor moves, echo and masking. Only the line the keys produce is.
- `Runtime.IndexOf` is an ordinal search. The source's culture-sensitive `String.IndexOf` may match differently on non-ASCII text.
- `Runtime.BdtClient.InputProxyCredentials`: the user name, password and domain it reads, and setting them on the proxy, are not modelled. Only the prompt count is.
- `ConfigureProxy` is not modelled. It only chooses the proxy object and its credentials and changes no state the core reads.
- `Run`, `Main`, configuration loading, culture setup and command dispatch in BdtClient.cs are not modelled.
- The listener classes (`GatewayServer`, `SocksServer`, `TcpServer`), the remoting protocols and the request/response records are not modelled. A listener is recorded by its constructor arguments, and the tunnel is an opaque handle.
- `Runtime.BdtClient.StartClient`: an exception from `Login` is not modelled. Login's answer is an input.
- `Runtime.BdtClient.Connect`: an exception thrown by `GetTunnel` itself is not distinguished from one thrown by `Version`. m_tunnel is taken as assigned on every pass, whereas the source leaves it unchanged when GetTunnel throws.
- `Runtime.BdtClient.DisposeServers`: an exception from `CloseServer` is not modelled.
- Logging is recorded only for the warnings the core decides on: FORWARD_CANCELED, SOCKS_SERVER_DISABLED and VERSION_MISMATCH. Informational messages are dropped.
