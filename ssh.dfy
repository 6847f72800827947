/**
 * What the two programs take from `net/url` and from the SSH library, as
 * plain values. The URL grammar is not modelled: a parse is given as its
 * outcome, the host part and the user part `url.Parse` would report.
 */
module Ssh {
  import opened Optional

  /** `url.Userinfo`: a user name and a password that may be unset. */
  datatype Userinfo = Userinfo(username: string, password: Option<string>)

  /** The outcome of `url.Parse`: an error, or a URL with its `Host` and `User` fields. */
  datatype ParsedUrl = ParseFailed | Url(host: string, user: Option<Userinfo>)

  /** An `ssh.AuthMethod`: a password, or the single private key loaded at start-up. */
  datatype AuthMethod = Password(secret: string) | PublicKeys

  /** The parts of `ssh.ClientConfig` the programs set. */
  datatype ClientConfig = ClientConfig(user: string, auth: seq<AuthMethod>)

  /** `Userinfo.Username()` of an optional `User`, `""` when there is none. */
  function UsernameOf(user: Option<Userinfo>): (name: string)
    ensures user.Some? ==> name == user.value.username
    ensures name != "" ==> user.Some?
  {
    if user.Some? then user.value.username else ""
  }

  /** `pass, _ := User.Password()`: `""` when the password is unset. */
  function PasswordOf(user: Option<Userinfo>): (pass: string)
    ensures user.Some? && user.value.password.Some? ==> pass == user.value.password.value
    ensures pass != "" ==> user.Some? && user.value.password == Some(pass)
  {
    if user.Some? && user.value.password.Some? then user.value.password.value else ""
  }
}
