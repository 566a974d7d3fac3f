/**
 * The tunnel client's orchestration state: the table of local listeners keyed
 * by local port, the console line editor used to collect proxy credentials,
 * startup (version check with proxy-authentication retries, login, listener
 * setup) and shutdown (listener disposal, logout, reset).
 *
 * The tunnel, the listeners and the console are not modelled as objects: the
 * tunnel's answers and the key presses are inputs, a listener is a record of
 * its constructor arguments, and what the client sends or closes is logged.
 */
module Runtime {
  import opened Shared

  /** An opaque handle on the ITunnel proxy the protocol hands out. */
  datatype Tunnel = Tunnel(id: int)

  /** One configured port forward. */
  datatype PortForward = PortForward(enabled: bool, localPort: int, shared: bool, address: string, remotePort: int)

  /**
   * The parts of the client configuration the core reads; `forwards` lists the
   * forward dictionary's values in enumeration order.
   */
  datatype ClientConfig = ClientConfig(
    forwards: seq<PortForward>,
    socksEnabled: bool,
    socksPort: int,
    socksShared: bool,
    serviceUserName: string,
    servicePassword: string)

  /** A local listener, recorded by its constructor arguments. */
  datatype Server =
    | GatewayServer(localPort: int, shared: bool, remotePort: int, address: string, tunnel: Tunnel, sid: int)
    | SocksServer(port: int, shared: bool, tunnel: Tunnel, sid: int)
  {
    function Port(): (p: int)
    {
      if GatewayServer? then localPort else port
    }
  }

  /** The warnings the core logs. */
  datatype Warning =
    | ForwardCanceled(localPort: int, address: string, remotePort: int)
    | SocksServerDisabled(port: int)
    | VersionMismatch

  /** The requests the client sends on the tunnel, besides Version. */
  datatype Request = LoginRequest(userName: string, password: string) | LogoutRequest(sid: int)

  // ---------------------------------------------------------------------------
  // The listener table
  // ---------------------------------------------------------------------------

  /**
   * A Dictionary<int, TcpServer>: the entries keyed by local port, and the keys
   * in enumeration order. Entries are only ever added or all cleared, so the
   * enumeration order is the order of insertion.
   */
  datatype Table = Table(entries: map<int, Server>, order: seq<int>)
  {
    /** Keys and order agree, keys are listed once, and each listener is filed under its own port. */
    ghost predicate Valid()
    {
      && (forall p :: p in entries ==> p in order)
      && (forall i :: 0 <= i < |order| ==> order[i] in entries)
      && (forall i, j :: 0 <= i < j < |order| ==> order[i] != order[j])
      && (forall p :: p in entries ==> entries[p].Port() == p)
    }

    predicate ContainsKey(port: int)
    {
      port in entries
    }

    /** Dictionary.Add of a key that is not there yet. */
    function Add(port: int, server: Server): (t: Table)
      requires !ContainsKey(port)
      ensures Valid() && server.Port() == port ==> t.Valid()
      ensures t.entries == entries[port := server] && t.order == order + [port]
    {
      Table(entries[port := server], order + [port])
    }

    /** Dictionary.Values, in enumeration order. */
    function Values(): (r: seq<Server>)
      requires forall i :: 0 <= i < |order| ==> order[i] in entries
      ensures |r| == |order| && forall i :: 0 <= i < |order| ==> r[i] == entries[order[i]]
    {
      seq(|order|, i requires 0 <= i < |order| => entries[order[i]])
    }
  }

  const EmptyTable: Table := Table(map[], [])

  /**
   * Enumerating a well-formed table yields every listener exactly once: each
   * entry appears, nothing else does, and no listener appears twice.
   */
  lemma ValuesListEachEntryOnce(t: Table)
    requires t.Valid()
    ensures forall p :: p in t.entries ==> t.entries[p] in t.Values()
    ensures forall s :: s in t.Values() ==> s.Port() in t.entries && t.entries[s.Port()] == s
    ensures forall i, j :: 0 <= i < j < |t.Values()| ==> t.Values()[i] != t.Values()[j]
  {
    var v := t.Values();
    forall p | p in t.entries
      ensures t.entries[p] in v
    {
      var i :| 0 <= i < |t.order| && t.order[i] == p;
      assert v[i] == t.entries[p];
    }
  }

  function Gateway(f: PortForward, tunnel: Tunnel, sid: int): (s: Server)
    ensures s.Port() == f.localPort
  {
    GatewayServer(f.localPort, f.shared, f.remotePort, f.address, tunnel, sid)
  }

  /** One iteration of InitializeForwards. */
  function RegisterForward(servers: Table, f: PortForward, tunnel: Tunnel, sid: int): (t: Table)
  {
    if f.enabled && !servers.ContainsKey(f.localPort) then servers.Add(f.localPort, Gateway(f, tunnel, sid))
    else servers
  }

  /** The table after InitializeForwards. */
  function AddForwards(servers: Table, forwards: seq<PortForward>, tunnel: Tunnel, sid: int): (t: Table)
    decreases |forwards|
  {
    if forwards == [] then servers
    else AddForwards(RegisterForward(servers, forwards[0], tunnel, sid), forwards[1..], tunnel, sid)
  }

  /** The warnings InitializeForwards logs, in order. */
  function ForwardWarnings(servers: Table, forwards: seq<PortForward>, tunnel: Tunnel, sid: int): (ws: seq<Warning>)
    decreases |forwards|
  {
    if forwards == [] then []
    else
      var f := forwards[0];
      (if f.enabled && servers.ContainsKey(f.localPort) then [ForwardCanceled(f.localPort, f.address, f.remotePort)] else [])
      + ForwardWarnings(RegisterForward(servers, f, tunnel, sid), forwards[1..], tunnel, sid)
  }

  function EnabledForwards(forwards: seq<PortForward>): (enabled: seq<PortForward>)
  {
    if forwards == [] then []
    else (if forwards[0].enabled then [forwards[0]] else []) + EnabledForwards(forwards[1..])
  }

  /** The first enabled forward on a local port, if any. */
  function FirstEnabled(forwards: seq<PortForward>, port: int): (r: Option<PortForward>)
    ensures r.Some? ==> r.value.enabled && r.value.localPort == port
    ensures r.Some? ==>
      exists i :: 0 <= i < |forwards| && forwards[i] == r.value
        && forall j :: 0 <= j < i ==> !(forwards[j].enabled && forwards[j].localPort == port)
    ensures r.None? <==> forall i :: 0 <= i < |forwards| ==> !(forwards[i].enabled && forwards[i].localPort == port)
    decreases |forwards|
  {
    if forwards == [] then None
    else if forwards[0].enabled && forwards[0].localPort == port then Some(forwards[0])
    else
      var r := FirstEnabled(forwards[1..], port);
      assert forall i :: 1 <= i < |forwards| ==> forwards[i] == forwards[1..][i - 1];
      r
  }

  /**
   * First registration wins: a port keeps the listener it already had;
   * otherwise it gets the first enabled forward on it; disabled forwards and
   * later duplicates register nothing.
   */
  lemma {:induction false} FirstRegistrationWins(servers: Table, forwards: seq<PortForward>, tunnel: Tunnel, sid: int, p: int)
    ensures var r := AddForwards(servers, forwards, tunnel, sid).entries;
      && (p in r <==> p in servers.entries || FirstEnabled(forwards, p).Some?)
      && (p in servers.entries ==> r[p] == servers.entries[p])
      && (p !in servers.entries && FirstEnabled(forwards, p).Some? ==> r[p] == Gateway(FirstEnabled(forwards, p).value, tunnel, sid))
    decreases |forwards|
  {
    if forwards != [] {
      var m := RegisterForward(servers, forwards[0], tunnel, sid);
      FirstRegistrationWins(m, forwards[1..], tunnel, sid, p);
    }
  }

  /** InitializeForwards never removes or replaces an entry, and registers every enabled forward's port. */
  lemma ForwardsRegistered(servers: Table, forwards: seq<PortForward>, tunnel: Tunnel, sid: int)
    ensures var r := AddForwards(servers, forwards, tunnel, sid).entries;
      && (forall p :: p in servers.entries ==> p in r && r[p] == servers.entries[p])
      && (forall i :: 0 <= i < |forwards| && forwards[i].enabled ==> forwards[i].localPort in r)
      && (forall p :: p in r && p !in servers.entries ==> FirstEnabled(forwards, p).Some?)
  {
    var r := AddForwards(servers, forwards, tunnel, sid).entries;
    forall p | p in servers.entries
      ensures p in r && r[p] == servers.entries[p]
    {
      FirstRegistrationWins(servers, forwards, tunnel, sid, p);
    }
    forall i | 0 <= i < |forwards| && forwards[i].enabled
      ensures forwards[i].localPort in r
    {
      FirstRegistrationWins(servers, forwards, tunnel, sid, forwards[i].localPort);
    }
    forall p | p in r && p !in servers.entries
      ensures FirstEnabled(forwards, p).Some?
    {
      FirstRegistrationWins(servers, forwards, tunnel, sid, p);
    }
  }

  /**
   * The table stays a well-formed dictionary, and the ports already
   * registered keep their place at the front of the enumeration order.
   */
  lemma {:induction false} ForwardsKeepTableValid(servers: Table, forwards: seq<PortForward>, tunnel: Tunnel, sid: int)
    requires servers.Valid()
    ensures var r := AddForwards(servers, forwards, tunnel, sid);
      r.Valid() && servers.order <= r.order
    decreases |forwards|
  {
    if forwards != [] {
      ForwardsKeepTableValid(RegisterForward(servers, forwards[0], tunnel, sid), forwards[1..], tunnel, sid);
    }
  }

  /** Each enabled forward either registers a new port or logs one warning. */
  lemma {:induction false} EveryEnabledForwardAccountedFor(servers: Table, forwards: seq<PortForward>, tunnel: Tunnel, sid: int)
    ensures var r := AddForwards(servers, forwards, tunnel, sid);
      |r.order| - |servers.order| + |ForwardWarnings(servers, forwards, tunnel, sid)| == |EnabledForwards(forwards)|
    decreases |forwards|
  {
    if forwards != [] {
      var m := RegisterForward(servers, forwards[0], tunnel, sid);
      EveryEnabledForwardAccountedFor(m, forwards[1..], tunnel, sid);
    }
  }

  /** The table after InitializeSocks. */
  function AddSocks(servers: Table, config: ClientConfig, tunnel: Tunnel, sid: int): (t: Table)
  {
    if config.socksEnabled && !servers.ContainsKey(config.socksPort) then
      servers.Add(config.socksPort, SocksServer(config.socksPort, config.socksShared, tunnel, sid))
    else servers
  }

  /** The warning InitializeSocks logs, if any. */
  function SocksWarnings(servers: Table, config: ClientConfig): (ws: seq<Warning>)
  {
    if config.socksEnabled && servers.ContainsKey(config.socksPort) then [SocksServerDisabled(config.socksPort)] else []
  }

  /**
   * Forwards are registered before the SOCKS server, so on a shared port the
   * forward wins: the SOCKS port ends up with the listener it already had, else
   * the first enabled forward on it, else the SOCKS server when it is enabled.
   */
  lemma ForwardsBeforeSocks(servers: Table, config: ClientConfig, tunnel: Tunnel, sid: int)
    ensures var r := AddSocks(AddForwards(servers, config.forwards, tunnel, sid), config, tunnel, sid).entries;
      var p := config.socksPort;
      var first := FirstEnabled(config.forwards, p);
      && (p in r <==> p in servers.entries || first.Some? || config.socksEnabled)
      && (p in r ==> r[p] == (if p in servers.entries then servers.entries[p]
                              else if first.Some? then Gateway(first.value, tunnel, sid)
                              else SocksServer(p, config.socksShared, tunnel, sid)))
      && (forall q :: q != p ==> (q in r <==> q in servers.entries || FirstEnabled(config.forwards, q).Some?))
  {
    var m := AddForwards(servers, config.forwards, tunnel, sid);
    FirstRegistrationWins(servers, config.forwards, tunnel, sid, config.socksPort);
    forall q | q != config.socksPort
      ensures q in AddSocks(m, config, tunnel, sid).entries <==> q in servers.entries || FirstEnabled(config.forwards, q).Some?
    {
      FirstRegistrationWins(servers, config.forwards, tunnel, sid, q);
    }
  }

  // ---------------------------------------------------------------------------
  // The console line editor
  // ---------------------------------------------------------------------------

  /** The longest line the editor accepts. */
  const MaxInputLength: nat := 32

  datatype ConsoleKey = Backspace | Enter | OtherKey

  /** One key press: the key and the character it produced. */
  datatype KeyInfo = KeyInfo(key: ConsoleKey, keyChar: char)

  /** A line the editor can hold: short enough, and letters and digits only. */
  ghost predicate WellFormedInput(line: string, isLetterOrDigit: char -> bool)
  {
    |line| <= MaxInputLength && forall i :: 0 <= i < |line| ==> isLetterOrDigit(line[i])
  }

  /** The effect of one key press on the line being edited. */
  function ApplyKey(line: string, k: KeyInfo, isLetterOrDigit: char -> bool): (r: string)
    ensures WellFormedInput(line, isLetterOrDigit) ==> WellFormedInput(r, isLetterOrDigit)
    ensures r == line || (|line| > 0 && r == line[..|line| - 1]) || r == line + [k.keyChar]
    ensures k.key != Backspace && isLetterOrDigit(k.keyChar) && |line| < MaxInputLength ==> r == line + [k.keyChar]
    ensures k.key != Backspace && !(isLetterOrDigit(k.keyChar) && |line| < MaxInputLength) ==> r == line
  {
    match k.key
    case Backspace => if |line| > 0 then line[..|line| - 1] else line
    case _ => if isLetterOrDigit(k.keyChar) && |line| < MaxInputLength then line + [k.keyChar] else line
  }

  /** The line after a sequence of key presses. */
  function Typed(line: string, keys: seq<KeyInfo>, isLetterOrDigit: char -> bool): (typed: string)
    decreases |keys|
  {
    if keys == [] then line else Typed(ApplyKey(line, keys[0], isLetterOrDigit), keys[1..], isLetterOrDigit)
  }

  /** The position of the first Enter, or the number of keys when there is none. */
  function FirstEnter(keys: seq<KeyInfo>): (n: nat)
    ensures n <= |keys|
    ensures forall j :: 0 <= j < n ==> keys[j].key != Enter
    ensures n < |keys| ==> keys[n].key == Enter
    decreases |keys|
  {
    if keys == [] || keys[0].key == Enter then 0 else 1 + FirstEnter(keys[1..])
  }

  lemma {:induction false} TypedSnoc(line: string, keys: seq<KeyInfo>, k: KeyInfo, isLetterOrDigit: char -> bool)
    ensures Typed(line, keys + [k], isLetterOrDigit) == ApplyKey(Typed(line, keys, isLetterOrDigit), k, isLetterOrDigit)
    decreases |keys|
  {
    if keys == [] {
      assert [] + [k] == [k];
    } else {
      assert (keys + [k])[1..] == keys[1..] + [k];
      TypedSnoc(ApplyKey(line, keys[0], isLetterOrDigit), keys[1..], k, isLetterOrDigit);
    }
  }

  /** Whatever keys are pressed, the line stays within 32 letters and digits. */
  lemma {:induction false} TypedWellFormed(line: string, keys: seq<KeyInfo>, isLetterOrDigit: char -> bool)
    requires WellFormedInput(line, isLetterOrDigit)
    ensures WellFormedInput(Typed(line, keys, isLetterOrDigit), isLetterOrDigit)
    decreases |keys|
  {
    if keys != [] {
      TypedWellFormed(ApplyKey(line, keys[0], isLetterOrDigit), keys[1..], isLetterOrDigit);
    }
  }

  /**
   * Backspace removes exactly the last character and does nothing on an empty
   * line; it undoes a letter or digit typed on a line that was not full.
   */
  lemma BackspaceLaws(line: string, c: char, other: ConsoleKey, isLetterOrDigit: char -> bool)
    ensures forall ch ::
      ApplyKey(line, KeyInfo(Backspace, ch), isLetterOrDigit) == (if line == [] then [] else line[..|line| - 1])
    ensures other != Backspace && isLetterOrDigit(c) && |line| < MaxInputLength ==>
      ApplyKey(ApplyKey(line, KeyInfo(other, c), isLetterOrDigit), KeyInfo(Backspace, c), isLetterOrDigit) == line
  {
    if other != Backspace && isLetterOrDigit(c) && |line| < MaxInputLength {
      assert (line + [c])[..|line|] == line;
    }
  }

  /** The Enter key's own character (a carriage return, not a letter or digit) is not appended. */
  lemma EnterNotAppended(before: seq<KeyInfo>, enter: KeyInfo, isLetterOrDigit: char -> bool)
    requires enter.key == Enter && !isLetterOrDigit(enter.keyChar)
    ensures Typed([], before + [enter], isLetterOrDigit) == Typed([], before, isLetterOrDigit)
  {
    TypedSnoc([], before, enter, isLetterOrDigit);
  }

  /**
   * InputString: reads key presses up to and including the first Enter. When
   * the keys run out before an Enter the call has not returned: the result is
   * None and every key was consumed.
   */
  method InputString(keys: seq<KeyInfo>, isLetterOrDigit: char -> bool) returns (line: Option<string>, used: nat)
    ensures line.Some? <==> FirstEnter(keys) < |keys|
    ensures used == if line.Some? then FirstEnter(keys) + 1 else |keys|
    ensures line.Some? ==> line.value == Typed([], keys[..used], isLetterOrDigit)
    ensures line.Some? ==> WellFormedInput(line.value, isLetterOrDigit)
  {
    var result: string := [];
    var i := 0;
    while true
      invariant 0 <= i <= |keys|
      invariant forall j :: 0 <= j < i ==> keys[j].key != Enter
      invariant result == Typed([], keys[..i], isLetterOrDigit)
      invariant WellFormedInput(result, isLetterOrDigit)
      decreases |keys| - i
    {
      if i == |keys| {
        assert FirstEnter(keys) == |keys|;
        return None, i;
      }
      var cki := keys[i];
      match cki.key {
        case Backspace =>
          if |result| > 0 {
            result := result[..|result| - 1];
          }
        case _ =>
          if isLetterOrDigit(cki.keyChar) && |result| < MaxInputLength {
            result := result + [cki.keyChar];
          }
      }
      assert keys[..i + 1] == keys[..i] + [cki];
      TypedSnoc([], keys[..i], cki, isLetterOrDigit);
      i := i + 1;
      if cki.key == Enter {
        assert FirstEnter(keys) == i - 1;
        return Some(result), i;
      }
    }
  }

  // ---------------------------------------------------------------------------
  // Startup
  // ---------------------------------------------------------------------------

  /** HTTP 407, Proxy Authentication Required. */
  const ProxyAuthenticationRequired: int := 407

  /** How the Version call of one connect attempt ended. */
  datatype VersionReply =
      /** The server answered. */
    | Replied(response: MinimalResponse)
      /** Version returned null. */
    | NullReply
      /** A WebException; `httpStatus` is the status of its HttpWebResponse when it carries one. */
    | WebFailure(httpStatus: Option<int>)
      /** Any other exception. */
    | OtherFailure

  /** One pass of the connect loop: the tunnel GetTunnel returned and the Version outcome. */
  datatype Attempt = Attempt(tunnel: Option<Tunnel>, reply: VersionReply)

  /** Calling Version on a null tunnel throws, which is not a WebException. */
  function Outcome(a: Attempt): (reply: VersionReply)
  {
    if a.tunnel.None? then OtherFailure else a.reply
  }

  /** The attempt asks for proxy credentials and another pass. */
  predicate Retries(a: Attempt, proxyCompatible: bool)
  {
    proxyCompatible && Outcome(a) == WebFailure(Some(ProxyAuthenticationRequired))
  }

  /** How many leading attempts asked for proxy credentials. */
  function Retried(attempts: seq<Attempt>, proxyCompatible: bool): (k: nat)
    ensures k <= |attempts|
    ensures forall i :: 0 <= i < k ==> Retries(attempts[i], proxyCompatible)
    ensures k < |attempts| ==> !Retries(attempts[k], proxyCompatible)
    decreases |attempts|
  {
    if attempts == [] || !Retries(attempts[0], proxyCompatible) then 0
    else 1 + Retried(attempts[1..], proxyCompatible)
  }

  /** How the connect loop ended. */
  datatype LoopEnd =
      /** Version answered. */
    | Answered(tunnel: Tunnel, response: MinimalResponse)
      /** Version returned null, or an HTTP error other than 407 reached a proxy-compatible protocol: no response. */
    | NoResponse
      /** The exception propagated out of StartClient. */
    | Raised
      /** The attempts ran out while the loop was still retrying. */
    | Unfinished

  /** The outcome of the connect loop over the given attempts. */
  function ConnectOutcome(attempts: seq<Attempt>, proxyCompatible: bool): (end: LoopEnd)
  {
    var k := Retried(attempts, proxyCompatible);
    if k == |attempts| then Unfinished
    else
      match Outcome(attempts[k])
      case Replied(response) => Answered(attempts[k].tunnel.value, response)
      case NullReply => NoResponse
      case WebFailure(status) => if status.Some? && proxyCompatible then NoResponse else Raised
      case OtherFailure => Raised
  }

  /** What m_tunnel holds after the connect loop. */
  function TunnelAfter(attempts: seq<Attempt>, proxyCompatible: bool, previous: Option<Tunnel>): (tunnel: Option<Tunnel>)
  {
    if attempts == [] then previous
    else attempts[Min(Retried(attempts, proxyCompatible), |attempts| - 1)].tunnel
  }

  /** How StartClient ends. */
  datatype StartResult =
      /** Logged in: the session id is set. */
    | Ready
      /** Version answered with Success false: StartClient returns without a session. */
    | VersionRefused
      /** The connect loop ended with no response: the CONNECTION_FAILED exception. */
    | ConnectionFailed
      /** Login answered with Success false: an exception carrying the login message. */
    | LoginFailed(message: string)
      /** An exception from the connect loop propagated. */
    | Rethrown
      /** The attempts ran out while the loop was still retrying. */
    | AwaitingReply

  function StartOutcome(attempts: seq<Attempt>, proxyCompatible: bool, login: LoginResponse): (result: StartResult)
  {
    match ConnectOutcome(attempts, proxyCompatible)
    case Answered(_, response) =>
      if !response.success then VersionRefused
      else if login.success then Ready
      else LoginFailed(login.message)
    case NoResponse => ConnectionFailed
    case Raised => Rethrown
    case Unfinished => AwaitingReply
  }

  /**
   * The connect loop repeats only on a 407 from a proxy-compatible protocol;
   * the first other outcome decides: an answer, any other HTTP error from a
   * proxy-compatible protocol (no response), or an exception that propagates.
   */
  lemma ConnectLoopLaws(attempts: seq<Attempt>, proxyCompatible: bool)
    ensures !proxyCompatible && attempts != [] ==> Retried(attempts, proxyCompatible) == 0
    ensures var k := Retried(attempts, proxyCompatible);
      var end := ConnectOutcome(attempts, proxyCompatible);
      && (end == Unfinished <==> k == |attempts|)
      && (end.Answered? <==> k < |attempts| && attempts[k].tunnel.Some? && attempts[k].reply.Replied?)
      && (end == NoResponse <==>
            (k < |attempts| && attempts[k].tunnel.Some?
             && (|| attempts[k].reply.NullReply?
                 || (&& proxyCompatible && attempts[k].reply.WebFailure? && attempts[k].reply.httpStatus.Some?
                     && attempts[k].reply.httpStatus.value != ProxyAuthenticationRequired))))
  {
  }

  /**
   * A session is obtained exactly when, after the proxy retries, Version
   * answers with success and Login succeeds; the session id is Login's.
   */
  lemma {:induction false} ReadyExactlyAfterVersionAndLogin(attempts: seq<Attempt>, proxyCompatible: bool, login: LoginResponse)
    ensures StartOutcome(attempts, proxyCompatible, login) == Ready <==>
      exists k :: 0 <= k < |attempts|
        && (forall i :: 0 <= i < k ==> Retries(attempts[i], proxyCompatible))
        && attempts[k].tunnel.Some? && attempts[k].reply.Replied? && attempts[k].reply.response.success
        && login.success
  {
    var k := Retried(attempts, proxyCompatible);
    if StartOutcome(attempts, proxyCompatible, login) == Ready {
      assert k < |attempts|;
    }
    if exists j :: 0 <= j < |attempts|
        && (forall i :: 0 <= i < j ==> Retries(attempts[i], proxyCompatible))
        && attempts[j].tunnel.Some? && attempts[j].reply.Replied? && attempts[j].reply.response.success
        && login.success
    {
      var j :| 0 <= j < |attempts|
        && (forall i :: 0 <= i < j ==> Retries(attempts[i], proxyCompatible))
        && attempts[j].tunnel.Some? && attempts[j].reply.Replied? && attempts[j].reply.response.success
        && login.success;
      assert !Retries(attempts[j], proxyCompatible);
    }
  }

  /** The position of a substring, or -1 (String.IndexOf, ordinal). */
  ghost predicate OccursAt(s: string, sub: string, i: int)
  {
    0 <= i && i + |sub| <= |s| && s[i..i + |sub|] == sub
  }

  function IndexFrom(s: string, sub: string, from: nat): (r: int)
    ensures r == -1 || (from <= r && OccursAt(s, sub, r))
    ensures r == -1 ==> forall j :: from <= j ==> !OccursAt(s, sub, j)
    ensures r != -1 ==> forall j :: from <= j < r ==> !OccursAt(s, sub, j)
    decreases |s| - from
  {
    if from + |sub| > |s| then -1
    else if s[from..from + |sub|] == sub then from
    else IndexFrom(s, sub, from + 1)
  }

  function IndexOf(s: string, sub: string): (r: int)
    ensures r == -1 <==> forall j :: !OccursAt(s, sub, j)
    ensures r != -1 ==> OccursAt(s, sub, r) && forall j :: 0 <= j < r ==> !OccursAt(s, sub, j)
  {
    IndexFrom(s, sub, 0)
  }

  // ---------------------------------------------------------------------------
  // The client
  // ---------------------------------------------------------------------------

  class BdtClient {
    /** m_servers: the listeners, keyed by local port. */
    var servers: Table
    /** m_clientConfig. */
    const config: ClientConfig
    /** The protocol implements IProxyCompatible. */
    const proxyCompatible: bool
    /** The command-line arguments; empty when the client only forwards. */
    const args: seq<string>
    /** m_tunnel. */
    var tunnel: Option<Tunnel>
    /** m_sid. */
    var sid: Option<int>
    /** The protocol is configured as a client (ConfigureClient / UnConfigureClient). */
    var protocolConfigured: bool
    /** How many times proxy credentials were asked for. */
    var proxyPrompts: nat
    /** The warnings logged. */
    var warnings: seq<Warning>
    /** The listeners CloseServer was called on, in order. */
    var closed: seq<Server>
    /** The Login and Logout requests sent on the tunnel. */
    var requests: seq<Request>

    ghost predicate Valid()
      reads this
    {
      servers.Valid()
    }

    constructor (config: ClientConfig, proxyCompatible: bool, args: seq<string>)
      ensures Valid()
      ensures this.config == config && this.proxyCompatible == proxyCompatible && this.args == args
      ensures servers == EmptyTable && tunnel == None && sid == None && !protocolConfigured
      ensures proxyPrompts == 0 && warnings == [] && closed == [] && requests == []
    {
      this.config := config;
      this.proxyCompatible := proxyCompatible;
      this.args := args;
      servers := EmptyTable;
      tunnel, sid := None, None;
      protocolConfigured := false;
      proxyPrompts := 0;
      warnings, closed, requests := [], [], [];
    }

    /** Registers a gateway for every enabled forward whose port is free. */
    method InitializeForwards(tunnel: Tunnel, sid: int)
      requires Valid()
      modifies this`servers, this`warnings
      ensures Valid()
      ensures servers == AddForwards(old(servers), config.forwards, tunnel, sid)
      ensures warnings == old(warnings) + ForwardWarnings(old(servers), config.forwards, tunnel, sid)
    {
      var forwards := config.forwards;
      ForwardsKeepTableValid(servers, forwards, tunnel, sid);
      var i := 0;
      while i < |forwards|
        invariant 0 <= i <= |forwards|
        invariant AddForwards(servers, forwards[i..], tunnel, sid) == AddForwards(old(servers), forwards, tunnel, sid)
        invariant warnings + ForwardWarnings(servers, forwards[i..], tunnel, sid)
          == old(warnings) + ForwardWarnings(old(servers), forwards, tunnel, sid)
      {
        var forward := forwards[i];
        assert forwards[i..][1..] == forwards[i + 1..];
        if forward.enabled {
          if servers.ContainsKey(forward.localPort) {
            warnings := warnings + [ForwardCanceled(forward.localPort, forward.address, forward.remotePort)];
          } else {
            servers := servers.Add(forward.localPort, Gateway(forward, tunnel, sid));
          }
        }
        i := i + 1;
      }
    }

    /** Registers the SOCKS server when it is enabled and its port is free. */
    method InitializeSocks(tunnel: Tunnel, sid: int)
      requires Valid()
      modifies this`servers, this`warnings
      ensures Valid()
      ensures servers == AddSocks(old(servers), config, tunnel, sid)
      ensures warnings == old(warnings) + SocksWarnings(old(servers), config)
    {
      if config.socksEnabled {
        var port := config.socksPort;
        if servers.ContainsKey(port) {
          warnings := warnings + [SocksServerDisabled(port)];
        } else {
          servers := servers.Add(port, SocksServer(port, config.socksShared, tunnel, sid));
        }
      }
    }

    /** Closes every registered listener once, in enumeration order, and empties the table. */
    method DisposeServers()
      requires Valid()
      modifies this`servers, this`closed
      ensures Valid() && servers == EmptyTable
      ensures closed == old(closed) + old(servers).Values()
    {
      var values := servers.Values();
      for i := 0 to |values|
        invariant servers == old(servers)
        invariant closed == old(closed) + values[..i]
      {
        CloseServer(values[i]);
        assert values[..i + 1] == values[..i] + [values[i]];
      }
      assert values[..|values|] == values;
      servers := EmptyTable;
    }

    /** TcpServer.CloseServer, recorded. */
    method CloseServer(server: Server)
      modifies this`closed
      ensures closed == old(closed) + [server]
    {
      closed := closed + [server];
    }

    /** InputProxyCredentials: the credentials themselves are not modelled. */
    method InputProxyCredentials()
      modifies this`proxyPrompts
      ensures proxyPrompts == old(proxyPrompts) + 1
    {
      proxyPrompts := proxyPrompts + 1;
    }

    /** The do/while loop of StartClient around GetTunnel and Version. */
    method Connect(attempts: seq<Attempt>) returns (end: LoopEnd)
      modifies this`tunnel, this`proxyPrompts
      ensures end == ConnectOutcome(attempts, proxyCompatible)
      ensures tunnel == TunnelAfter(attempts, proxyCompatible, old(tunnel))
      ensures proxyPrompts == old(proxyPrompts) + Retried(attempts, proxyCompatible)
    {
      ghost var k := Retried(attempts, proxyCompatible);
      var i := 0;
      while true
        invariant 0 <= i <= k
        invariant proxyPrompts == old(proxyPrompts) + i
        invariant i == 0 ==> tunnel == old(tunnel)
        invariant 0 < i ==> tunnel == attempts[i - 1].tunnel
        decreases |attempts| - i
      {
        if i == |attempts| {
          return Unfinished;
        }
        var retry := false;
        var a := attempts[i];
        tunnel := a.tunnel;
        if a.tunnel.None? {
          return Raised;
        }
        match a.reply {
          case Replied(response) =>
            end := Answered(a.tunnel.value, response);
          case WebFailure(status) =>
            if status.Some? && proxyCompatible {
              if status.value == ProxyAuthenticationRequired {
                retry := true;
                InputProxyCredentials();
              } else {
                end := NoResponse;
              }
            } else {
              end := Raised;
            }
          case NullReply =>
            end := NoResponse;
          case OtherFailure =>
            end := Raised;
        }
        if !retry {
          return;
        }
        i := i + 1;
      }
    }

    /**
     * StartClient: configures the protocol, runs the connect loop, warns when
     * the server's version string does not contain the client's, logs in when
     * Version succeeded, and sets up the listeners when there are no
     * command-line arguments.
     */
    method StartClient(attempts: seq<Attempt>, login: LoginResponse, clientVersion: string) returns (result: StartResult)
      requires Valid()
      modifies this
      ensures Valid()
      ensures result == StartOutcome(attempts, proxyCompatible, login)
      ensures protocolConfigured
      ensures tunnel == TunnelAfter(attempts, proxyCompatible, old(tunnel))
      ensures proxyPrompts == old(proxyPrompts) + Retried(attempts, proxyCompatible)
      ensures sid == if result == Ready then Some(login.sid) else old(sid)
      ensures var end := ConnectOutcome(attempts, proxyCompatible);
        requests == old(requests)
          + (if end.Answered? && end.response.success
             then [LoginRequest(config.serviceUserName, config.servicePassword)] else [])
      ensures var end := ConnectOutcome(attempts, proxyCompatible);
        var mismatch := if end.Answered? && IndexOf(end.response.message, clientVersion) < 0 then [VersionMismatch] else [];
        if result == Ready && args == [] then
          var forwarded := AddForwards(old(servers), config.forwards, end.tunnel, login.sid);
          && servers == AddSocks(forwarded, config, end.tunnel, login.sid)
          && warnings == old(warnings) + mismatch
               + ForwardWarnings(old(servers), config.forwards, end.tunnel, login.sid) + SocksWarnings(forwarded, config)
        else
          servers == old(servers) && warnings == old(warnings) + mismatch
      ensures closed == old(closed)
    {
      protocolConfigured := true;
      var end := Connect(attempts);
      match end {
        case Answered(t, response) =>
          if IndexOf(response.message, clientVersion) < 0 {
            warnings := warnings + [VersionMismatch];
          }
          if response.success {
            requests := requests + [LoginRequest(config.serviceUserName, config.servicePassword)];
            if login.success {
              sid := Some(login.sid);
              if args == [] {
                InitializeForwards(t, login.sid);
                InitializeSocks(t, login.sid);
              }
              result := Ready;
            } else {
              result := LoginFailed(login.message);
            }
          } else {
            result := VersionRefused;
          }
        case NoResponse =>
          result := ConnectionFailed;
        case Raised =>
          result := Rethrown;
        case Unfinished =>
          result := AwaitingReply;
      }
    }

    /**
     * StopClient: disposes the listeners, sends Logout when there is a tunnel
     * and a session, then resets the tunnel and the session and unconfigures
     * the protocol. A Logout that throws propagates before the reset.
     */
    method StopClient(logoutThrows: bool) returns (thrown: bool)
      modifies this
      requires Valid()
      ensures Valid() && servers == EmptyTable
      ensures closed == old(closed) + old(servers).Values()
      ensures var attempted := old(tunnel).Some? && old(sid).Some?;
        && requests == old(requests) + (if attempted then [LogoutRequest(old(sid).value)] else [])
        && thrown == (attempted && logoutThrows)
      ensures !thrown ==> tunnel == None && sid == None && !protocolConfigured
      ensures thrown ==> tunnel == old(tunnel) && sid == old(sid) && protocolConfigured == old(protocolConfigured)
      ensures warnings == old(warnings) && proxyPrompts == old(proxyPrompts)
    {
      DisposeServers();
      thrown := false;
      if tunnel.Some? && sid.Some? {
        requests := requests + [LogoutRequest(sid.value)];
        if logoutThrows {
          thrown := true;
          return;
        }
      }
      tunnel := None;
      sid := None;
      protocolConfigured := false;
    }
  }
}
