/**
 * Remote hosts of the tailing variant (octobus.go): `NewRemoteHostTcp4`,
 * `getCurrentUser`, and the endpoint labels that tag a host's output.
 */
module RemoteHosts {
  import opened Optional
  import opened Ssh

  /** `RemoteHost`: the network, the `host:port` address and the client configuration. */
  datatype RemoteHost = RemoteHost(network: string, addr: string, config: ClientConfig)

  /** An outcome that may also be a runtime panic of the Go code. */
  datatype HostOutcome = Created(host: RemoteHost) | ParseError | Panicked

  /**
   * `getCurrentUser` as written: it reads `usr.Username` only when
   * `user.Current()` FAILED, when `usr` is nil, so a successful lookup gives
   * the empty name and a failed one dereferences nil. `lookup` is what
   * `user.Current()` gives: the account name, or `None` on error.
   */
  function CurrentUserName(lookup: Option<string>): (r: Option<string>)
    ensures lookup.Some? ==> r == Some("")
    ensures lookup.None? ==> r.None?
  {
    if lookup.Some? then Some("") else None
  }

  /** The address with `:22` appended when it holds no colon. */
  function WithDefaultPort(host: string): (addr: string)
    ensures ':' in addr
    ensures ':' in host ==> addr == host
    ensures ':' !in host ==> addr == host + ":22"
  {
    if ':' !in host then host + ":22" else host
  }

  /** Defaulting the port twice is defaulting it once. */
  lemma WithDefaultPortIdempotent(host: string)
    ensures WithDefaultPort(WithDefaultPort(host)) == WithDefaultPort(host)
  {
  }

  /**
   * `NewRemoteHostTcp4(addr, config)`, given what `url.Parse("ssh://" +
   * addr)` reported and what `user.Current()` would give. The network is
   * `tcp4`, the address is the URL host with the port defaulted, and the
   * user is the embedded one when non-empty; otherwise `getCurrentUser` is
   * used, which as written gives `""` or panics. The rest of the
   * configuration is kept.
   */
  function NewRemoteHostTcp4(parsed: ParsedUrl, config: ClientConfig, lookup: Option<string>): (r: HostOutcome)
    ensures r.ParseError? <==> parsed.ParseFailed?
    ensures r.Panicked? <==> parsed.Url? && UsernameOf(parsed.user) == "" && lookup.None?
    ensures r.Created? ==>
      r.host.network == "tcp4" && r.host.addr == WithDefaultPort(parsed.host) &&
      r.host.config.auth == config.auth
    ensures r.Created? && UsernameOf(parsed.user) != "" ==> r.host.config.user == UsernameOf(parsed.user)
    ensures r.Created? && UsernameOf(parsed.user) == "" ==> r.host.config.user == ""
  {
    match parsed
    case ParseFailed => ParseError
    case Url(host, user) =>
      var addr := WithDefaultPort(host);
      if UsernameOf(user) != "" then
        Created(RemoteHost("tcp4", addr, config.(user := UsernameOf(user))))
      else
        match CurrentUserName(lookup)
        case None => Panicked
        case Some(name) => Created(RemoteHost("tcp4", addr, config.(user := name)))
  }

  /** The two output streams of a session. */
  datatype Stream = Stdout | Stderr

  function StreamName(s: Stream): (name: string)
  {
    match s
    case Stdout => "stdout"
    case Stderr => "stderr"
  }

  /**
   * `fmt.Sprintf("%s@%s/stdout", ...)` and its `stderr` twin (octobus.go:143-146).
   * A label tells its stream and its `user@addr` back: the six characters at
   * its end name the stream, and what comes before the `/` in front of them
   * is `user@addr`.
   */
  function Endpoint(host: RemoteHost, s: Stream): (tag: string)
    ensures |tag| >= 7 && tag[|tag| - 7] == '/' && tag[|tag| - 6..] == StreamName(s)
    ensures tag[..|tag| - 7] == host.config.user + "@" + host.addr
  {
    var prefix := host.config.user + "@" + host.addr;
    var tag := prefix + ("/" + StreamName(s));
    assert tag[..|prefix|] == prefix;
    tag
  }

  /** The two labels of one host are different, so its stdout and stderr lines can be told apart. */
  lemma EndpointsDiffer(host: RemoteHost)
    ensures Endpoint(host, Stdout) != Endpoint(host, Stderr)
  {
    assert StreamName(Stdout)[3] != StreamName(Stderr)[3];
  }
}
