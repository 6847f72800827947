/**
 * Home-directory expansion of key and host-file paths. The home directory
 * that `user.Current()` would report is a parameter.
 */
module Paths {
  import opened Optional
  import opened GoStrings

  /**
   * `resolvePath` (main.go): a path starting with `~` has that first `~`
   * replaced by the home directory; any other path is kept. An empty path
   * makes the Go code panic on `path[:1]`, so callers must not pass one.
   */
  function ResolvePath(path: string, home: string): (r: string)
    requires |path| > 0
    ensures path[0] != '~' ==> r == path
    ensures path[0] == '~' ==> r == home + path[1..]
  {
    if path[..1] != "~" then path else ReplaceFirst(path, '~', home)
  }

  /** Only the first `~` is expanded; later ones stay as they are. */
  lemma {:induction false} ResolvePathFirstTildeOnly(path: string, home: string)
    requires |path| > 0 && path[0] == '~'
    ensures ResolvePath(path, home)[..|home|] == home
    ensures ResolvePath(path, home)[|home|..] == path[1..]
    ensures Count(ResolvePath(path, home), '~') == Count(home, '~') + Count(path, '~') - 1
  {
    CountAppend(home, path[1..], '~');
  }

  lemma {:induction false} CountAppend(a: string, b: string, c: char)
    ensures Count(a + b, c) == Count(a, c) + Count(b, c)
  {
    if |a| > 0 {
      CountAppend(a[1..], b, c);
      assert (a + b)[1..] == a[1..] + b;
    } else {
      assert a + b == b;
    }
  }

  /** The outcome of `loadPrivateKey` up to the file read: the path to read, or the missing-key error. */
  datatype KeyPath = ReadKeyAt(path: string) | NeedPrivateKey

  /**
   * `loadPrivateKey` (main.go) before the read: an empty key path is
   * refused with "need private key"; any other is resolved.
   */
  function PrivateKeyPath(keyPath: string, home: string): (r: KeyPath)
    ensures r == NeedPrivateKey <==> keyPath == ""
    ensures keyPath != "" && keyPath[0] != '~' ==> r == ReadKeyAt(keyPath)
    ensures keyPath != "" && keyPath[0] == '~' ==> r == ReadKeyAt(home + keyPath[1..])
  {
    if keyPath == "" then NeedPrivateKey else ReadKeyAt(ResolvePath(keyPath, home))
  }

  /** The key used when none is named. */
  const DefaultKeyPath: string := "~/.ssh/id_rsa"

  /** The outcome of `getKeyFile` up to the file read: the path to read, or the `user.Current` error. */
  datatype KeyFile = ReadKeyFile(path: string) | UserLookupFailed

  /**
   * `getKeyFile` (octobus.go) before the read: `""` means the default key;
   * a `~/` prefix is replaced by the home directory, keeping the slash. The
   * user lookup happens only for such a path; `home` is its outcome.
   */
  function KeyFilePath(keyPath: string, home: Option<string>): (r: KeyFile)
    ensures var p := if keyPath == "" then DefaultKeyPath else keyPath;
      (r.UserLookupFailed? <==> "~/" <= p && home.None?) &&
      (!("~/" <= p) ==> r == ReadKeyFile(p)) &&
      ("~/" <= p && home.Some? ==> r == ReadKeyFile(home.value + "/" + p[2..]))
  {
    var p := if keyPath == "" then DefaultKeyPath else keyPath;
    if "~/" <= p then
      if home.Some? then ReadKeyFile(home.value + p[1..]) else UserLookupFailed
    else ReadKeyFile(p)
  }

  /** With a home directory `h`, no key path means `h + "/.ssh/id_rsa"`. */
  lemma DefaultKeyFile(h: string)
    ensures KeyFilePath("", Some(h)) == ReadKeyFile(h + "/.ssh/id_rsa")
  {
    assert DefaultKeyPath[1..] == "/.ssh/id_rsa";
  }

  /**
   * The two expansions differ: `resolvePath` expands any leading `~`, while
   * `getKeyFile` expands only `~/`, so `~name` is left alone by the latter.
   */
  lemma TildeRulesDiffer(rest: string, h: string)
    requires rest == [] || rest[0] != '/'
    ensures ResolvePath("~" + rest, h) == h + rest
    ensures KeyFilePath("~" + rest, Some(h)) == ReadKeyFile("~" + rest)
  {
    assert ("~" + rest)[1..] == rest;
    assert !("~/" <= "~" + rest) by {
      if |rest| > 0 {
        assert ("~" + rest)[1] == rest[0];
      }
    }
  }
}
