/**
 * The target of one host in main.go (`runCmdOnHost`, main.go:74-111): the
 * dial address, the user, and the ordered authentication methods, computed
 * from the raw host string and what `url.Parse` made of it.
 *
 * When `url.Parse` reports no host and no user for a scheme-less
 * `user:pass@host:port`, as it does for `alice:secret@db1:2200` (scheme
 * `alice`), the raw string is used whole as the address source and the
 * user and password in it are not extracted (see
 * `SchemeLessUserIsNotExtracted`).
 */
module HostTarget {
  import opened Optional
  import opened GoStrings
  import opened Ssh

  /** A resolved target: the `host:port` to dial and the client configuration. */
  datatype Target = Target(addr: string, config: ClientConfig)

  /**
   * `strings.Split(h, ":")`, then `parts[0] + ":22"` for one part and
   * `parts[0] + ":" + parts[1]` otherwise.
   */
  function DialAddress(h: string): (addr: string)
    ensures exists host, port :: ':' !in host && ':' !in port && addr == host + ":" + port
  {
    var parts := Split(h, ':');
    var port := if |parts| == 1 then "22" else parts[1];
    assert ':' !in parts[0] && ':' !in port;
    parts[0] + ":" + port
  }

  /**
   * The address, described by where the colons are: no colon gets port 22;
   * otherwise the text before the first colon and the text between the
   * first and the second colon (or the end) are kept, and anything after a
   * second colon is dropped.
   */
  lemma DialAddressByColons(h: string)
    ensures ':' !in h ==> DialAddress(h) == h + ":22"
    ensures ':' in h ==>
      var i := IndexOf(h, ':');
      var rest := h[i + 1..];
      DialAddress(h) == h[..i] + ":" + (if ':' in rest then rest[..IndexOf(rest, ':')] else rest)
  {
    SplitAtFirst(h, ':');
    if ':' in h {
      var i := IndexOf(h, ':');
      SplitAtFirst(h[i + 1..], ':');
    }
  }

  /** A host without a colon gets the default port. */
  lemma DialAddressDefaultPort(host: string)
    requires ':' !in host
    ensures DialAddress(host) == host + ":22"
  {
    SplitAtFirst(host, ':');
  }

  /** `host:port` and `host:port:rest` both dial `host:port`. */
  lemma DialAddressKeepsTwoFields(host: string, port: string, rest: Option<string>)
    requires ':' !in host && ':' !in port
    ensures var tail := if rest.Some? then ":" + rest.value else "";
      DialAddress(host + ":" + port + tail) == host + ":" + port
  {
    var tail := if rest.Some? then ":" + rest.value else "";
    var t := ":" + port + tail;
    assert host + ":" + port + tail == host + t;
    SplitPrefix(host, t, ':');
    assert t[0] == ':' && t[1..] == port + tail;
    assert Split(t, ':') == [""] + Split(port + tail, ':');
    SplitPrefix(port, tail, ':');
    if rest.Some? {
      assert tail[0] == ':' && tail[1..] == rest.value;
      assert Split(tail, ':')[0] == "";
    } else {
      assert Split(tail, ':') == [""];
    }
    assert host + "" == host;
    assert port + "" == port;
  }

  /** Normalising an address again leaves it as it is. */
  lemma DialAddressIdempotent(h: string)
    ensures DialAddress(DialAddress(h)) == DialAddress(h)
  {
    var host, port :| ':' !in host && ':' !in port && DialAddress(h) == host + ":" + port;
    DialAddressKeepsTwoFields(host, port, None);
    assert host + ":" + port + "" == host + ":" + port;
  }

  /**
   * The user: the embedded user name when it is non-empty, else the default
   * user.
   */
  function EffectiveUser(user: Option<Userinfo>, defaultUser: string): (u: string)
    ensures UsernameOf(user) != "" ==> u == UsernameOf(user)
    ensures UsernameOf(user) == "" ==> u == defaultUser
  {
    var u := UsernameOf(user);
    if u == "" then defaultUser else u
  }

  /**
   * The password: the embedded password when it is set and non-empty, else
   * the default password.
   */
  function EffectivePassword(user: Option<Userinfo>, defaultPass: string): (p: string)
    ensures PasswordOf(user) != "" ==> p == PasswordOf(user)
    ensures PasswordOf(user) == "" ==> p == defaultPass
  {
    var p := PasswordOf(user);
    if p == "" then defaultPass else p
  }

  /**
   * The authentication methods: the key alone, with a password method put
   * in front of it exactly when the password is non-empty.
   */
  function AuthMethods(pass: string): (auth: seq<AuthMethod>)
    ensures |auth| == if pass == "" then 1 else 2
    ensures auth[|auth| - 1] == PublicKeys
    ensures Password(pass) in auth <==> pass != ""
    ensures pass != "" ==> auth[0] == Password(pass)
    ensures forall i :: 0 <= i < |auth| && auth[i].Password? ==> i == 0 && auth[i].secret == pass
  {
    var auth := [PublicKeys];
    if pass != "" then [Password(pass)] + auth else auth
  }

  /**
   * main.go:74-111: a parse failure ends the host; otherwise the address
   * comes from the URL host, or from the raw string when that host is
   * empty, and the credentials fall back to the defaults.
   */
  function ResolveTarget(raw: string, parsed: ParsedUrl, defaultUser: string, defaultPass: string): (t: Option<Target>)
    ensures t.None? <==> parsed.ParseFailed?
    ensures parsed.Url? && parsed.host == "" ==> t.value.addr == DialAddress(raw)
    ensures parsed.Url? && parsed.host != "" ==> t.value.addr == DialAddress(parsed.host)
    ensures parsed.Url? ==> t.value.config.user == EffectiveUser(parsed.user, defaultUser)
    ensures parsed.Url? ==> t.value.config.auth == AuthMethods(EffectivePassword(parsed.user, defaultPass))
  {
    match parsed
    case ParseFailed => None
    case Url(host, user) =>
      var source := if host == "" then raw else host;
      var pass := EffectivePassword(user, defaultPass);
      Some(Target(DialAddress(source), ClientConfig(EffectiveUser(user, defaultUser), AuthMethods(pass))))
  }

  /**
   * A bare host such as `db2`, parsed with no host and no user, dials port
   * 22 as the default user, with the default password's methods.
   */
  lemma BareHost(host: string, defaultUser: string, defaultPass: string)
    requires ':' !in host
    ensures ResolveTarget(host, Url("", None), defaultUser, defaultPass) ==
      Some(Target(host + ":22", ClientConfig(defaultUser, AuthMethods(defaultPass))))
  {
    DialAddressDefaultPort(host);
  }

  /**
   * `user:pass@host:port` without a scheme, when `url.Parse` reports no
   * host and no user for it (as for `alice:secret@db1:2200`): the address
   * is the raw
   * string's first two colon fields, `user:pass@host`, and the default
   * user and password apply.
   */
  lemma SchemeLessUserIsNotExtracted(user: string, pass: string, host: string, port: string,
                                     defaultUser: string, defaultPass: string)
    requires ':' !in user && ':' !in pass && ':' !in host && ':' !in port
    ensures var raw := user + ":" + pass + "@" + host + ":" + port;
      ResolveTarget(raw, Url("", None), defaultUser, defaultPass) ==
      Some(Target(user + ":" + pass + "@" + host,
        ClientConfig(defaultUser, AuthMethods(defaultPass))))
  {
    var field := pass + "@" + host;
    assert ':' !in field;
    DialAddressKeepsTwoFields(user, field, Some(port));
    assert user + ":" + field + (":" + port) == user + ":" + pass + "@" + host + ":" + port;
    assert user + ":" + field == user + ":" + pass + "@" + host;
  }

  /**
   * With the `ssh://` scheme the URL's host and user are used: the embedded
   * user, password first, then the key.
   */
  lemma WithSchemeUserIsUsed(user: string, pass: string, host: string, port: string,
                             defaultUser: string, defaultPass: string)
    requires user != "" && pass != "" && ':' !in host && ':' !in port
    ensures ResolveTarget("ssh://" + user + ":" + pass + "@" + host + ":" + port,
      Url(host + ":" + port, Some(Userinfo(user, Some(pass)))), defaultUser, defaultPass) ==
      Some(Target(host + ":" + port, ClientConfig(user, [Password(pass), PublicKeys])))
  {
    var info := Some(Userinfo(user, Some(pass)));
    DialAddressKeepsTwoFields(host, port, None);
    assert host + ":" + port + "" == host + ":" + port;
    assert |host + ":" + port| > 0;
    assert EffectiveUser(info, defaultUser) == user;
    assert EffectivePassword(info, defaultPass) == pass;
    assert AuthMethods(pass) == [Password(pass), PublicKeys];
  }
}
