/**
 * `parseHosts` (main.go): the `-hosts` flag is either an inline list split
 * on `,`, or `@path`, naming a file with one host per line. The file system
 * is a map from path to contents; a path that is not in it cannot be read.
 */
module HostList {
  import opened GoStrings
  import Paths

  datatype HostsError =
    | ReadFailed(path: string)  // `ioutil.ReadFile` failed
    | EmptyPathPanic            // `@` alone: `resolvePath("")` slices an empty string

  datatype HostsResult = Hosts(hosts: seq<string>) | HostsFailed(error: HostsError)

  /** True when the flag names a host file. */
  predicate IsFileRef(flagHost: string)
  {
    |flagHost| > 0 && flagHost[0] == '@'
  }

  /** The entries a host file keeps: every line but the empty ones, in order. */
  function NonEmpty(lines: seq<string>): (kept: seq<string>)
    ensures |kept| <= |lines|
    ensures forall i :: 0 <= i < |kept| ==> kept[i] != ""
  {
    if |lines| == 0 then []
    else (if lines[0] != "" then [lines[0]] else []) + NonEmpty(lines[1..])
  }

  /** Filtering two runs of lines filters each in turn: file order is kept. */
  lemma {:induction false} NonEmptyAppend(a: seq<string>, b: seq<string>)
    ensures NonEmpty(a + b) == NonEmpty(a) + NonEmpty(b)
  {
    if |a| > 0 {
      NonEmptyAppend(a[1..], b);
      assert (a + b)[1..] == a[1..] + b;
    } else {
      assert a + b == b;
    }
  }

  /**
   * Every non-empty line is kept as often as it occurs, duplicates
   * included, whitespace-only lines and `\r` included; only `""` goes.
   */
  lemma {:induction false} NonEmptyCounts(lines: seq<string>)
    ensures multiset(NonEmpty(lines))[""] == 0
    ensures forall x :: x != "" ==> multiset(NonEmpty(lines))[x] == multiset(lines)[x]
  {
    if |lines| > 0 {
      NonEmptyCounts(lines[1..]);
      assert lines == [lines[0]] + lines[1..];
    }
  }

  /**
   * `parseHosts`: the inline list is split on `,`; `@path` is resolved
   * against the home directory, read, split on `\n`, and the empty lines
   * are dropped by the appending loop.
   */
  method ParseHosts(flagHost: string, home: string, files: map<string, string>) returns (r: HostsResult)
    ensures !IsFileRef(flagHost) ==> r == Hosts(Split(flagHost, ','))
    ensures flagHost == "@" ==> r == HostsFailed(EmptyPathPanic)
    ensures IsFileRef(flagHost) && |flagHost| > 1 ==>
      var path := Paths.ResolvePath(flagHost[1..], home);
      (path !in files ==> r == HostsFailed(ReadFailed(path))) &&
      (path in files ==> r == Hosts(NonEmpty(Split(files[path], '\n'))))
  {
    if !IsFileRef(flagHost) {
      return Hosts(Split(flagHost, ','));
    }
    if |flagHost| == 1 {
      return HostsFailed(EmptyPathPanic);
    }
    var path := Paths.ResolvePath(flagHost[1..], home);
    if path !in files {
      return HostsFailed(ReadFailed(path));
    }
    var lines := Split(files[path], '\n');
    var result: seq<string> := [];
    var i := 0;
    while i < |lines|
      invariant 0 <= i <= |lines|
      invariant result == NonEmpty(lines[..i])
    {
      NonEmptyAppend(lines[..i], [lines[i]]);
      assert lines[..i + 1] == lines[..i] + [lines[i]];
      if lines[i] != "" {
        result := result + [lines[i]];
      }
      i := i + 1;
    }
    assert lines[..i] == lines;
    return Hosts(result);
  }

  /**
   * An inline list of hosts without commas comes back field for field, in
   * order and with duplicates, and a list of `n` fields has `n - 1` commas.
   */
  lemma InlineHostsExact(hosts: seq<string>)
    requires |hosts| >= 1
    requires forall i :: 0 <= i < |hosts| ==> ',' !in hosts[i]
    ensures Split(Join(hosts, ','), ',') == hosts
    ensures Count(Join(hosts, ','), ',') == |hosts| - 1
  {
    SplitJoin(hosts, ',');
    SplitLength(Join(hosts, ','), ',');
  }

  /**
   * A host file whose lines are all non-empty gives exactly those lines,
   * in file order.
   */
  lemma {:induction false} HostFileExact(lines: seq<string>)
    requires |lines| >= 1
    requires forall i :: 0 <= i < |lines| ==> lines[i] != "" && '\n' !in lines[i]
    ensures NonEmpty(Split(Join(lines, '\n'), '\n')) == lines
  {
    SplitJoin(lines, '\n');
    AllKept(lines);
  }

  lemma {:induction false} AllKept(lines: seq<string>)
    requires forall i :: 0 <= i < |lines| ==> lines[i] != ""
    ensures NonEmpty(lines) == lines
  {
    if |lines| > 0 {
      AllKept(lines[1..]);
    }
  }

  /** A blank line between two entries, or a trailing newline, is dropped. */
  lemma BlankLinesDropped(a: string, b: string)
    requires a != "" && b != "" && '\n' !in a && '\n' !in b
    ensures NonEmpty(Split(a + "\n\n" + b + "\n", '\n')) == [a, b]
  {
    var fields := [a, "", b, ""];
    assert Join(fields[3..], '\n') == "";
    assert Join(fields[2..], '\n') == b + "\n";
    assert Join(fields[1..], '\n') == "\n" + b + "\n";
    assert Join(fields, '\n') == a + "\n\n" + b + "\n";
    SplitJoin(fields, '\n');
    assert NonEmpty(fields[2..]) == [b];
    assert NonEmpty(fields[1..]) == [b];
  }
}
