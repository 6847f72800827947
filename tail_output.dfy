/**
 * How the tailing variant prints a session's output (octobus.go:114-123,
 * 152-165): every chunk the session writes goes through a `WriterCallback`
 * to `messageReceive`, which prints one `endpoint: line` record per
 * non-blank line of the chunk. Standard output is modelled as the sequence
 * of records printed so far.
 */
module TailOutput {
  import opened Optional
  import opened GoStrings

  /** What `fmt.Printf("%s: %s\n", endpoint, line)` prints. */
  function Record(endpoint: string, line: string): (r: string)
    ensures |r| == |endpoint| + |line| + 3 && r[|r| - 1] == '\n'
    ensures r[..|endpoint|] == endpoint && r[|endpoint|..|endpoint| + 2] == ": "
    ensures r[|endpoint| + 2..|r| - 1] == line
  {
    endpoint + ": " + line + "\n"
  }

  /** The segments of a chunk, each trimmed, the empty ones dropped, in order. */
  function Payloads(segments: seq<string>): (lines: seq<string>)
    ensures |lines| <= |segments|
  {
    if |segments| == 0 then []
    else
      var t := TrimSpace(segments[0]);
      (if t == "" then [] else [t]) + Payloads(segments[1..])
  }

  /** The records for a run of lines, one per line, in order. */
  function Records(endpoint: string, lines: seq<string>): (records: seq<string>)
  {
    seq(|lines|, i requires 0 <= i < |lines| => Record(endpoint, lines[i]))
  }

  /** Everything `messageReceive(endpoint, data)` prints. */
  function Tagged(endpoint: string, data: string): (records: seq<string>)
    ensures |records| <= Count(data, '\n') + 1
  {
    SplitLength(data, '\n');
    Records(endpoint, Payloads(Split(data, '\n')))
  }

  /** A printed line: non-empty, free of `c`, and with no space at either end. */
  predicate CleanLine(line: string, c: char)
  {
    line != "" && c !in line && !IsSpace(line[0]) && !IsSpace(line[|line| - 1])
  }

  /**
   * Every payload is non-empty with no space at either end; a segment
   * without `c` gives payloads without `c`, since a payload lies inside its
   * segment.
   */
  lemma {:induction false} PayloadsClean(segments: seq<string>, c: char)
    requires forall i :: 0 <= i < |segments| ==> c !in segments[i]
    ensures forall i :: 0 <= i < |Payloads(segments)| ==> CleanLine(Payloads(segments)[i], c)
  {
    if |segments| > 0 {
      var rest := Payloads(segments[1..]);
      PayloadsClean(segments[1..], c);
      var s := segments[0];
      var t := TrimSpace(s);
      var head := if t == "" then [] else [t];
      assert Payloads(segments) == head + rest;
      if t != "" {
        TrimSpaceCut(s);
        var k :| 0 <= k <= |s| - |t| && t == s[k..k + |t|];
        forall m | 0 <= m < |t| ensures t[m] != c {
          assert t[m] == s[k + m];
        }
        assert CleanLine(t, c);
      }
      forall i | 0 <= i < |head + rest| ensures CleanLine((head + rest)[i], c) {
        if i >= |head| {
          assert (head + rest)[i] == rest[i - |head|];
        }
      }
    }
  }

  /** Trimming runs of segments one after the other keeps their order. */
  lemma {:induction false} PayloadsAppend(a: seq<string>, b: seq<string>)
    ensures Payloads(a + b) == Payloads(a) + Payloads(b)
  {
    if |a| > 0 {
      PayloadsAppend(a[1..], b);
      assert (a + b)[1..] == a[1..] + b;
    } else {
      assert a + b == b;
    }
  }

  lemma RecordsAppend(endpoint: string, a: seq<string>, b: seq<string>)
    ensures Records(endpoint, a + b) == Records(endpoint, a) + Records(endpoint, b)
  {
  }

  /**
   * Every record printed for a chunk is `endpoint + ": " + line + "\n"` for
   * a line that is non-empty, holds no newline and has no surrounding
   * whitespace.
   */
  lemma TaggedRecordShape(endpoint: string, data: string)
    ensures forall i :: 0 <= i < |Tagged(endpoint, data)| ==>
      exists line :: (Tagged(endpoint, data)[i] == Record(endpoint, line) &&
        line != "" && '\n' !in line && !IsSpace(line[0]) && !IsSpace(line[|line| - 1]))
  {
    var lines := Payloads(Split(data, '\n'));
    PayloadsClean(Split(data, '\n'), '\n');
    forall i | 0 <= i < |Tagged(endpoint, data)|
      ensures exists line :: (Tagged(endpoint, data)[i] == Record(endpoint, line) &&
        line != "" && '\n' !in line && !IsSpace(line[0]) && !IsSpace(line[|line| - 1]))
    {
      var line := lines[i];
      assert Tagged(endpoint, data)[i] == Record(endpoint, line);
    }
  }

  /**
   * A chunk made of clean lines joined by `\n` prints exactly one record
   * per line, in order.
   */
  lemma {:induction false} ChunkRoundTrip(endpoint: string, lines: seq<string>)
    requires |lines| >= 1
    requires forall i :: 0 <= i < |lines| ==>
      lines[i] != "" && '\n' !in lines[i] && !IsSpace(lines[i][0]) && !IsSpace(lines[i][|lines[i]| - 1])
    ensures Tagged(endpoint, Join(lines, '\n')) == Records(endpoint, lines)
  {
    SplitJoin(lines, '\n');
    CleanLinesKept(lines);
  }

  lemma {:induction false} CleanLinesKept(lines: seq<string>)
    requires forall i :: 0 <= i < |lines| ==>
      lines[i] != "" && !IsSpace(lines[i][0]) && !IsSpace(lines[i][|lines[i]| - 1])
    ensures Payloads(lines) == lines
  {
    if |lines| > 0 {
      TrimSpaceKeeps(lines[0]);
      CleanLinesKept(lines[1..]);
    }
  }

  /** A chunk of nothing but whitespace prints nothing. */
  lemma BlankChunkPrintsNothing(endpoint: string, data: string)
    requires AllSpace(data)
    ensures Tagged(endpoint, data) == []
  {
    SplitAllSpace(data, '\n');
    BlankSegmentsDropped(Split(data, '\n'));
  }

  lemma {:induction false} SplitAllSpace(s: string, sep: char)
    requires AllSpace(s)
    ensures forall i :: 0 <= i < |Split(s, sep)| ==> AllSpace(Split(s, sep)[i])
  {
    if |s| > 0 {
      SplitAllSpace(s[1..], sep);
      assert IsSpace(s[0]);
    }
  }

  lemma {:induction false} BlankSegmentsDropped(segments: seq<string>)
    requires forall i :: 0 <= i < |segments| ==> AllSpace(segments[i])
    ensures Payloads(segments) == []
  {
    if |segments| > 0 {
      BlankSegmentsDropped(segments[1..]);
      TrimSpaceCut(segments[0]);
    }
  }

  /** `RemoteRunner`, reduced to what `messageReceive` changes: the process's standard output. */
  class RemoteRunner {
    /** The records printed so far, in order. */
    var printed: seq<string>

    constructor ()
      ensures printed == []
    {
      printed := [];
    }

    /**
     * `messageReceive`: splits the chunk on `\n`, trims each line, skips
     * the empty ones and prints the others tagged with the endpoint.
     */
    method MessageReceive(endpoint: string, data: string)
      modifies this
      ensures printed == old(printed) + Tagged(endpoint, data)
    {
      var lines := Split(data, '\n');
      var i := 0;
      while i < |lines|
        invariant 0 <= i <= |lines|
        invariant printed == old(printed) + Records(endpoint, Payloads(lines[..i]))
      {
        var line := TrimSpace(lines[i]);
        PayloadsAppend(lines[..i], [lines[i]]);
        RecordsAppend(endpoint, Payloads(lines[..i]), Payloads([lines[i]]));
        assert lines[..i + 1] == lines[..i] + [lines[i]];
        if line != "" {
          assert Records(endpoint, Payloads([lines[i]])) == [Record(endpoint, line)];
          printed := printed + [Record(endpoint, line)];
        } else {
          assert Payloads([lines[i]]) == [];
        }
        i := i + 1;
      }
      assert lines[..i] == lines;
    }
  }

  /** `WriterCallback`: an `io.Writer` that hands every chunk to `messageReceive` with its endpoint. */
  class WriterCallback {
    const endpoint: string
    const runner: RemoteRunner

    constructor (endpoint: string, runner: RemoteRunner)
      ensures this.endpoint == endpoint && this.runner == runner
    {
      this.endpoint := endpoint;
      this.runner := runner;
    }

    /**
     * `Write`: one callback with this writer's endpoint and the same data,
     * then the whole chunk reported written and no error.
     */
    method Write(data: string) returns (n: nat, err: Option<string>)
      modifies runner
      ensures n == |data| && err == None
      ensures runner.printed == old(runner.printed) + Tagged(endpoint, data)
    {
      runner.MessageReceive(endpoint, data);
      return |data|, None;
    }
  }
}
