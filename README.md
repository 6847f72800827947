# octobus: the decision and string rules of a fleet SSH runner, in Dafny

octobus runs one command on many hosts over SSH and streams back what each
host prints. It comes in two variants. `main.go` runs a templated command on
every host, with an optional reconnect mode. `octobus.go` follows a file with
`tail -f` on every host and prints each output line tagged with its origin.
Around the SSH transport and the goroutines sit small sequential rules, and
this project models and proves those rules:

- **Host-list resolution** (`parseHosts`): an inline `-hosts` list is split
  on `,`. The form `@path` reads a file, splits it on `\n` and keeps every
  non-empty line. The file system is a map from path to contents.
- **Target normalisation** in main.go: the address comes from the URL host,
  or from the raw string when the URL host is empty. It is split on `:` and
  gets port `22` when it has no colon. The user and password fall back to
  the defaults, and a password method goes before the key. In octobus.go
  (`NewRemoteHostTcp4`), `:22` is appended only when the host has no colon,
  an embedded user wins, and the network is `tcp4`.
- **Paths and commands**: `~` expansion (`resolvePath`, `getKeyFile`), the
  empty-key check of `loadPrivateKey`, the `tail -f` command, and the
  `user@addr/stdout` and `user@addr/stderr` endpoint labels.
- **Retry policies** as loops over a sequence of step outcomes. In main.go a
  setup failure retries only under `reconnect`, and an `ExitError` from
  `Run` is always final. In octobus.go, `run` is called again until it
  returns nil. Its error comes only from `Dial` and `NewSession`, because the
  result of `session.Run` is dropped.
- **Output tagging** (`messageReceive`, `WriterCallback.Write`): each chunk
  becomes one `endpoint: line` record per non-blank, trimmed line, in order.
  Standard output is modelled as the sequence of records printed so far.

`net/url.Parse` is not modelled as a grammar. Each parse is an input: a
failure, or a URL with a host and an optional user (name and optional
password). Each SSH step is an input as well, given as the outcome it met.

Points where the code behaves differently from what a reader might expect;
the model follows the code:

- A scheme-less `alice:secret@db1:2200` is read by `url.Parse` as scheme
  `alice`, with no host and no user. main.go then dials `alice:secret@db1`
  as the default user. More generally, whenever `url.Parse` reports no host
  and no user for `user:pass@host:port`, the first two colon fields of the
  raw string are dialled as the default user
  (`HostTarget.SchemeLessUserIsNotExtracted`). Other user parts make
  `url.Parse` fail, so the host is skipped without dialling: an empty one,
  one with `_`, or one with a leading digit.
- main.go retries at once, with no backoff. Only octobus.go sleeps between
  calls.
- In octobus.go a connection that drops while the command runs is not
  retried, because `run` discards the result of `session.Run`.
- Each chunk is tagged on its own. A line that arrives split across two
  chunks prints as two records, with no buffering across chunks.
- `getCurrentUser` reads the user name only when `user.Current()` fails,
  which dereferences nil. When the lookup succeeds it gives `""`. It is
  modelled as written.
- `parseHosts("@")` panics in `resolvePath("")`. The model returns an
  explicit panic outcome for it.

## Model

| member | source | states |
|---|---|---|
| `GoStrings.Split` | main.go:219 | `strings.Split` with a one-character separator gives at least one field, and no field holds the separator |
| `GoStrings.SplitLength` | main.go:219 | an inline list has exactly one more host than it has commas |
| `GoStrings.JoinSplit` | main.go:219 | joining the inline fields with `,` gives back the flag value |
| `GoStrings.SplitJoin` | main.go:210 | splitting joined fields that hold no separator gives back exactly those fields, in order |
| `GoStrings.TrimSpace` | octobus.go:117 | neither end of a trimmed line is whitespace |
| `GoStrings.TrimSpaceCut` | octobus.go:117 | trimming keeps an infix and cuts off only whitespace, and gives `""` exactly when the line is all whitespace |
| `GoStrings.TrimSpaceKeeps` | octobus.go:117 | a line with no whitespace at either end is unchanged by trimming |
| `GoStrings.ReplaceFirst` | main.go:200 | `strings.Replace(s, "~", home, 1)` replaces the first `~` only and leaves a string without `~` unchanged |
| `Paths.ResolvePath` | main.go:195-201 | a path that does not start with `~` is returned unchanged; otherwise the leading `~` becomes the home directory; an empty path is excluded because the code panics on it |
| `Paths.ResolvePathFirstTildeOnly` | main.go:200 | only the first `~` is replaced: the result is the home directory followed by the rest of the path, with one `~` fewer |
| `Paths.PrivateKeyPath` | main.go:179-183 | an empty key path is the "need private key" error, exactly; any other path is resolved |
| `Paths.KeyFilePath` | octobus.go:186-196 | `""` means `~/.ssh/id_rsa`; the user lookup, and so its failure, happens only for a `~/` path; a `~/` prefix becomes the home directory followed by the slash and the rest; other paths are kept |
| `Paths.DefaultKeyFile` | octobus.go:187-196 | with no key path, the key read is `<home>/.ssh/id_rsa` |
| `Paths.TildeRulesDiffer` | octobus.go:190-195 | `~name` is expanded by `resolvePath` but left alone by `getKeyFile`, which expands only `~/` |
| `HostList.NonEmpty` | main.go:211-216 | the kept lines are never empty and are no more than the input lines |
| `HostList.NonEmptyAppend` | main.go:212-216 | filtering keeps file order: filtering two runs of lines is filtering each in turn |
| `HostList.NonEmptyCounts` | main.go:212-216 | every non-empty line, including whitespace-only and `\r` lines, is kept as often as it occurs, and no `""` is kept |
| `HostList.ParseHosts` | main.go:203-220 | an inline flag gives exactly its `,` fields; `@` alone is the panic; `@path` gives a read error for an unreadable resolved path, else the non-empty `\n` segments of the contents, in order |
| `HostList.InlineHostsExact` | main.go:219 | `n` comma-free hosts joined by `,` come back exactly, in order, duplicates kept, with `n - 1` commas |
| `HostList.HostFileExact` | main.go:210-216 | a file of non-empty lines yields exactly those lines, in file order |
| `HostList.BlankLinesDropped` | main.go:210-216 | a blank line between two entries and a trailing newline are dropped |
| `HostTarget.DialAddressByColons` | main.go:84-89 | no colon gives `host:22`; otherwise the text before the first colon, a colon, and the text up to the second colon or the end; later colon fields are dropped |
| `HostTarget.DialAddress` | main.go:84-89 | the address always has exactly one colon, with colon-free text on either side |
| `HostTarget.DialAddressDefaultPort` | main.go:85-86 | a host with no colon dials port 22 |
| `HostTarget.DialAddressKeepsTwoFields` | main.go:87-88 | `host:port` and `host:port:rest` both dial `host:port` |
| `HostTarget.DialAddressIdempotent` | main.go:84-89 | normalising a normalised address changes nothing |
| `Ssh.UsernameOf` | main.go:90-91 | the name is the embedded user's name; a non-empty name comes only from an embedded user |
| `Ssh.PasswordOf` | main.go:90-92 | the password is the embedded one when it is set; a non-empty password comes only from a set embedded password |
| `HostTarget.EffectiveUser` | main.go:90-96 | a non-empty embedded user is kept; an empty or absent one becomes the default user |
| `HostTarget.EffectivePassword` | main.go:90-99 | a non-empty embedded password is kept; an empty, unset or absent one becomes the default password |
| `HostTarget.AuthMethods` | main.go:103-111 | the methods are exactly the key for an empty password, and the password then the key otherwise: the key is always last, and a password method is present exactly when the password is non-empty |
| `HostTarget.ResolveTarget` | main.go:74-111 | a parse failure, and only a parse failure, gives no target; the address comes from the URL host, or from the raw string when that host is empty; user and methods follow the fallback rules |
| `HostTarget.BareHost` | main.go:81-111 | a bare colon-free host with no URL host dials `host:22` as the default user, with the default password's methods |
| `HostTarget.SchemeLessUserIsNotExtracted` | main.go:81-84 | when `url.Parse` reports no host and no user (as for `alice:secret@db1:2200`), a scheme-less `user:pass@host:port` dials `user:pass@host` as the default user with the default password |
| `HostTarget.WithSchemeUserIsUsed` | main.go:74-111 | with a URL host and user, the embedded user and host are used, password first, then the key |
| `HostSession.Retries` | main.go:114-157 | nothing is repeated without `reconnect`; a setup failure, and a `Run` failure that is not an `ExitError`, are repeated exactly when `reconnect` is set; an `ExitError` and a successful `Run` are never repeated |
| `HostSession.HostLoop` | main.go:112-160 | the loop stops at the first pass the policy does not repeat, after repeating every earlier pass; when the outcomes run out, every one was repeated |
| `HostSession.StopsAtFirstNonRetry` | main.go:112-160 | if pass `k` is the first one not repeated, the loop stops after exactly `k + 1` passes, at that pass |
| `HostSession.RetriesThroughout` | main.go:112-160 | if every given pass is repeated, the loop is still retrying after all of them |
| `HostSession.RetryLoop` | main.go:112-160 | the `for {}` loop with its `continue`, `return` and `break` ends exactly as the loop function says |
| `HostSession.NoReconnectOnePass` | main.go:113-157 | without `reconnect` there is exactly one pass, whatever it meets |
| `HostSession.ExitErrorIsTerminal` | main.go:152-157 | a `Run` failure that is an `ExitError` ends the host even under `reconnect` |
| `HostSession.TransportFailureRetriedIffReconnect` | main.go:152-157 | a `Run` failure that is not an `ExitError` is repeated exactly when `reconnect` is set |
| `HostSession.KFailuresThenSuccess` | main.go:112-159 | under `reconnect`, `k` failed dials followed by a successful run take exactly `k + 1` passes |
| `HostSession.RunCmdOnHost` | main.go:61-160 | a template failure, and only that, ends the host first; then a parse failure, and only that, ends it; otherwise the rendered command runs against the resolved target, and the loop ends as the loop function says |
| `RemoteHosts.CurrentUserName` | octobus.go:205-211 | as written, a successful user lookup gives the empty name and a failed one gives no name (the nil dereference) |
| `RemoteHosts.WithDefaultPort` | octobus.go:76-78 | the result always holds a colon; `:22` is appended exactly when the host had none |
| `RemoteHosts.WithDefaultPortIdempotent` | octobus.go:76-78 | defaulting the port twice is defaulting it once |
| `RemoteHosts.NewRemoteHostTcp4` | octobus.go:71-93 | a parse failure is an error, exactly; the network is `tcp4`, the address is the URL host with its port defaulted, and the key methods are kept; a non-empty embedded user overrides the configured one; otherwise the user is `""`, or a panic when the lookup fails |
| `RemoteHosts.Endpoint` | octobus.go:143-146 | a label ends with `/` and then `stdout` or `stderr` for its stream, and what precedes that `/` is `user@addr` |
| `RemoteHosts.EndpointsDiffer` | octobus.go:143-146 | the stdout and stderr labels of one host differ |
| `TailOutput.Record` | octobus.go:121 | a record is the endpoint, then `: `, then the line, then a newline, and nothing else |
| `TailOutput.Payloads` | octobus.go:116-120 | there are no more printed lines than segments |
| `TailOutput.Tagged` | octobus.go:115-122 | a chunk prints at most one record per `\n`-separated line |
| `TailOutput.PayloadsClean` | octobus.go:115-120 | every printed line is non-empty and has no whitespace at either end, and a character missing from every segment is missing from every printed line |
| `TailOutput.PayloadsAppend` | octobus.go:116-122 | segments are printed in their order: the lines of two runs of segments are those of each run in turn |
| `TailOutput.TaggedRecordShape` | octobus.go:114-123 | every record printed for a chunk is `endpoint + ": " + line + "\n"`, for a non-empty line without newline or surrounding whitespace |
| `TailOutput.ChunkRoundTrip` | octobus.go:114-123 | a chunk of clean lines joined by `\n` prints exactly one record per line, in order |
| `TailOutput.BlankChunkPrintsNothing` | octobus.go:117-120 | a chunk of nothing but whitespace prints nothing |
| `TailOutput.RemoteRunner.MessageReceive` | octobus.go:114-123 | standard output grows by exactly the records of the chunk's trimmed non-empty lines, in order, and nothing else |
| `TailOutput.WriterCallback.Write` | octobus.go:162-165 | one callback with the writer's own endpoint and the same data, then `(len(data), nil)` |
| `TailRunner.TailCommand` | octobus.go:106-110 | the command ends with the file, and before it is `sudo tail -f ` when `useSudo` and `tail -f ` otherwise; it starts with `sudo ` exactly when `useSudo` |
| `TailRunner.TailCommandInjective` | octobus.go:106-110 | the command determines the file and the sudo flag |
| `TailRunner.RunFails` | octobus.go:132-149 | `run` returns an error exactly when `Dial` or `NewSession` failed, that is when no session was opened |
| `TailRunner.TailLoop` | octobus.go:173-179 | a host's loop finishes at the first call of `run` that returns nil, after every earlier one failed |
| `TailRunner.FinishesAtFirstSession` | octobus.go:173-179 | the number of calls is the index of the first nil-returning call, plus one |
| `TailRunner.FailsThroughout` | octobus.go:173-179 | if every given call fails, the loop is still retrying after all of them |
| `TailRunner.RemoteFailureNotRetried` | octobus.go:132-149 | once a session is open the loop ends, whatever the remote command did, because its result is dropped |
| `TailRunner.RunMulti` | octobus.go:167-184 | each host gets its own loop over its own outcomes; when every host finished, the shared error is nil |
| `TailRunner.TailForever` | octobus.go:106-112 | runs the tail command on every host through `runMulti` |

## Left out

- SSH transport (`ssh.Dial`, `NewSession`, pipes, `Run`, `ParsePrivateKey`): each step is an input outcome of the retry loops. Key bytes are never read. `loadPrivateKey` and `getKeyFile` are modelled up to the path they would read.
- File reading and `user.Current()` are inputs. `parseHosts` reads a map from path to contents, and the home directory is a parameter. In main.go, a failed `user.Current()` makes `resolvePath` dereference nil; this is not modelled.
- pongo2 templating is an input: the rendered command, or `None` when pongo2 fails. Its syntax is not modelled.
- `net/url.Parse` grammar: the parse outcome is an input.
- Concurrency: the goroutines and `sync.WaitGroup` fan-out and fan-in of `runCmdOnHosts` and `runMulti`, the `safeWriter` mutex, and the `io.Copy` goroutines. Each main.go host is one `RunCmdOnHost` call with its own inputs, so hosts cannot affect each other.
- TailRunner.RunMulti: runs the hosts' loops one after another, so the race on the shared `err` is reduced to one schedule. The claim that `err` ends nil holds for that schedule.
- `time.Sleep` between calls in `runMulti`: it has no effect the model can observe.
- The outcome sequences are finite. "Still retrying" means the given outcomes ran out, so a loop that would retry forever ends that way. It can also happen before the first pass: with no outcomes, both loops end as "still retrying" after zero passes, even without `reconnect`, where the Go loop would make exactly one pass.
- TailOutput.RemoteRunner.MessageReceive: a chunk is read as a sequence of characters. Invalid UTF-8 is not modelled.
- TailOutput.WriterCallback.Write: returns the number of characters of the chunk, which equals `len(data)` only for ASCII data. The callback is fixed to `messageReceive`, the only one the program installs.
- Flag parsing, usage output, `log` and `fmt` logging, and the two `main` functions are not modelled. This includes octobus.go's own split of `-h` and its `-u` override (octobus.go:46-57).
