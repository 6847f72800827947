/**
 * The pieces of Go's `strings` package that the two programs rely on, over
 * `string` (= `seq<char>`): `Split` with a one-character separator, its
 * inverse `Join`, `TrimSpace`, and `Replace(s, old, new, 1)` for a
 * one-character `old`.
 */
module GoStrings {

  /** Index of the first occurrence of `c` in `s`. */
  function IndexOf(s: string, c: char): (i: nat)
    requires c in s
    ensures i < |s| && s[i] == c && c !in s[..i]
  {
    if s[0] == c then 0 else 1 + IndexOf(s[1..], c)
  }

  /** Number of occurrences of `c` in `s`. */
  function Count(s: string, c: char): (n: nat)
  {
    if |s| == 0 then 0 else (if s[0] == c then 1 else 0) + Count(s[1..], c)
  }

  /**
   * `strings.Split(s, string(sep))`: the fields between separators, in
   * order; the empty string gives one empty field.
   */
  function Split(s: string, sep: char): (fields: seq<string>)
    ensures |fields| >= 1
    ensures forall i :: 0 <= i < |fields| ==> sep !in fields[i]
  {
    if |s| == 0 then [""]
    else
      var rest := Split(s[1..], sep);
      if s[0] == sep then [""] + rest
      else [[s[0]] + rest[0]] + rest[1..]
  }

  /** `strings.Join(fields, string(sep))`. */
  function Join(fields: seq<string>, sep: char): (s: string)
    requires |fields| >= 1
  {
    if |fields| == 1 then fields[0] else fields[0] + [sep] + Join(fields[1..], sep)
  }

  /** Splitting yields one more field than there are separators. */
  lemma {:induction false} SplitLength(s: string, sep: char)
    ensures |Split(s, sep)| == Count(s, sep) + 1
  {
    if |s| > 0 {
      SplitLength(s[1..], sep);
    }
  }

  /** Joining the fields with the separator gives back the input. */
  lemma {:induction false} JoinSplit(s: string, sep: char)
    ensures Join(Split(s, sep), sep) == s
  {
    if |s| > 0 {
      var rest := Split(s[1..], sep);
      JoinSplit(s[1..], sep);
      if s[0] == sep {
        assert Split(s, sep) == [""] + rest;
        calc {
          Join([""] + rest, sep);
          "" + [sep] + Join(rest, sep);
          [s[0]] + s[1..];
        }
        assert [s[0]] + s[1..] == s;
      } else {
        var fields := [[s[0]] + rest[0]] + rest[1..];
        assert Split(s, sep) == fields;
        if |rest| == 1 {
          assert Join(fields, sep) == [s[0]] + rest[0];
        } else {
          assert fields[1..] == rest[1..];
          assert Join(rest, sep) == rest[0] + [sep] + Join(rest[1..], sep);
          assert Join(fields, sep) == [s[0]] + rest[0] + [sep] + Join(rest[1..], sep);
        }
        assert [s[0]] + s[1..] == s;
      }
    }
  }

  /** A separator-free prefix glues onto the first field of what follows it. */
  lemma {:induction false} SplitPrefix(a: string, tail: string, sep: char)
    requires sep !in a
    ensures Split(a + tail, sep) == [a + Split(tail, sep)[0]] + Split(tail, sep)[1..]
  {
    if |a| > 0 {
      var t := Split(tail, sep);
      SplitPrefix(a[1..], tail, sep);
      assert (a + tail)[0] == a[0] != sep;
      assert (a + tail)[1..] == a[1..] + tail;
      var rest := Split(a[1..] + tail, sep);
      assert rest == [a[1..] + t[0]] + t[1..];
      assert Split(a + tail, sep) == [[a[0]] + rest[0]] + rest[1..];
      assert [a[0]] + (a[1..] + t[0]) == a + t[0];
    } else {
      var rest := Split(tail, sep);
      assert a + tail == tail;
      assert a + rest[0] == rest[0];
      assert rest == [rest[0]] + rest[1..];
    }
  }

  /** Where the first separator is, the first field ends. */
  lemma SplitAtFirst(s: string, sep: char)
    ensures sep !in s ==> Split(s, sep) == [s]
    ensures sep in s ==>
      var i := IndexOf(s, sep);
      Split(s, sep) == [s[..i]] + Split(s[i + 1..], sep)
  {
    if sep !in s {
      SplitPrefix(s, "", sep);
      assert s + "" == s;
      assert Split("", sep) == [""];
    } else {
      var i := IndexOf(s, sep);
      var tail := s[i..];
      SplitPrefix(s[..i], tail, sep);
      assert s[..i] + tail == s;
      assert tail[0] == sep && tail[1..] == s[i + 1..];
      assert Split(tail, sep) == [""] + Split(s[i + 1..], sep);
      assert s[..i] + "" == s[..i];
    }
  }

  /** Splitting the joined fields gives the fields back, when none contains the separator. */
  lemma {:induction false} SplitJoin(fields: seq<string>, sep: char)
    requires |fields| >= 1
    requires forall i :: 0 <= i < |fields| ==> sep !in fields[i]
    ensures Split(Join(fields, sep), sep) == fields
  {
    if |fields| == 1 {
      SplitAtFirst(fields[0], sep);
    } else {
      var tail := [sep] + Join(fields[1..], sep);
      SplitJoin(fields[1..], sep);
      SplitPrefix(fields[0], tail, sep);
      assert Join(fields, sep) == fields[0] + tail;
      assert tail[0] == sep && tail[1..] == Join(fields[1..], sep);
      assert Split(tail, sep) == [""] + Split(tail[1..], sep);
      assert Split(tail, sep) == [""] + fields[1..];
      assert fields[0] + "" == fields[0];
      assert [fields[0]] + fields[1..] == fields;
    }
  }

  /**
   * `unicode.IsSpace`: the Latin-1 spaces '\t', '\n', '\v', '\f', '\r', ' ',
   * U+0085 and U+00A0, and the other characters Unicode marks White_Space.
   */
  predicate IsSpace(c: char)
  {
    c == '\t' || c == '\n' || c == '\U{000B}' || c == '\U{000C}' || c == '\r' || c == ' ' ||
    c == '\U{0085}' || c == '\U{00A0}' || c == '\U{1680}' ||
    ('\U{2000}' <= c <= '\U{200A}') || c == '\U{2028}' || c == '\U{2029}' ||
    c == '\U{202F}' || c == '\U{205F}' || c == '\U{3000}'
  }

  predicate AllSpace(s: string)
  {
    forall k :: 0 <= k < |s| ==> IsSpace(s[k])
  }

  /** Drops leading spaces. */
  function TrimLeft(s: string): (t: string)
  {
    if |s| > 0 && IsSpace(s[0]) then TrimLeft(s[1..]) else s
  }

  /** What is left by `TrimLeft` is a suffix of `s` after a run of spaces, and starts with no space. */
  lemma {:induction false} TrimLeftCut(s: string)
    ensures var t := TrimLeft(s);
      |t| <= |s| && t == s[|s| - |t|..] && AllSpace(s[..|s| - |t|]) && (|t| == 0 || !IsSpace(t[0]))
  {
    if |s| > 0 && IsSpace(s[0]) {
      TrimLeftCut(s[1..]);
      var t := TrimLeft(s[1..]);
      assert s[1..][|s| - 1 - |t|..] == s[|s| - |t|..];
      forall k | 0 <= k < |s| - |t| ensures IsSpace(s[k]) {
        if k > 0 {
          assert s[k] == s[1..][..|s| - 1 - |t|][k - 1];
        }
      }
    }
  }

  /** Drops trailing spaces. */
  function TrimRight(s: string): (t: string)
  {
    if |s| > 0 && IsSpace(s[|s| - 1]) then TrimRight(s[..|s| - 1]) else s
  }

  /** What is left by `TrimRight` is a prefix of `s` before a run of spaces, and ends with no space. */
  lemma {:induction false} TrimRightCut(s: string)
    ensures var t := TrimRight(s);
      |t| <= |s| && t == s[..|t|] && AllSpace(s[|t|..]) && (|t| == 0 || !IsSpace(t[|t| - 1]))
  {
    if |s| > 0 && IsSpace(s[|s| - 1]) {
      var s' := s[..|s| - 1];
      TrimRightCut(s');
      var t := TrimRight(s');
      assert s'[..|t|] == s[..|t|];
      forall k | |t| <= k < |s| ensures IsSpace(s[k]) {
        if k < |s| - 1 {
          assert s[k] == s'[|t|..][k - |t|];
        }
      }
    }
  }

  /**
   * `strings.TrimSpace`: `s` without its leading and trailing spaces, so
   * that neither end of the result is a space (`TrimSpaceCut` says what was
   * cut off).
   */
  function TrimSpace(s: string): (t: string)
    ensures |t| == 0 || (!IsSpace(t[0]) && !IsSpace(t[|t| - 1]))
  {
    TrimLeftCut(s);
    TrimRightCut(TrimLeft(s));
    TrimRight(TrimLeft(s))
  }

  /**
   * `TrimSpace` keeps an infix of `s` and cuts off only spaces; it gives
   * `""` exactly when `s` is all spaces.
   */
  lemma TrimSpaceCut(s: string)
    ensures TrimSpace(s) == "" <==> AllSpace(s)
    ensures exists i :: (0 <= i <= |s| - |TrimSpace(s)| && TrimSpace(s) == s[i..i + |TrimSpace(s)|]
      && AllSpace(s[..i]) && AllSpace(s[i + |TrimSpace(s)|..]))
  {
    var l := TrimLeft(s);
    TrimLeftCut(s);
    TrimRightCut(l);
    TrimCut(s, l, TrimRight(l));
  }

  /** A left trim followed by a right trim cuts an all-space prefix and an all-space suffix off `s`. */
  lemma TrimCut(s: string, l: string, t: string)
    requires |l| <= |s| && l == s[|s| - |l|..] && AllSpace(s[..|s| - |l|])
    requires |l| == 0 || !IsSpace(l[0])
    requires |t| <= |l| && t == l[..|t|] && AllSpace(l[|t|..])
    requires |t| == 0 || !IsSpace(t[|t| - 1])
    ensures |t| == 0 || (!IsSpace(t[0]) && !IsSpace(t[|t| - 1]))
    ensures t == "" <==> AllSpace(s)
    ensures exists i :: (0 <= i <= |s| - |t| && t == s[i..i + |t|]
      && AllSpace(s[..i]) && AllSpace(s[i + |t|..]))
  {
    var i := |s| - |l|;
    assert t == s[i..i + |t|];
    assert s[i + |t|..] == l[|t|..];
    assert |t| == 0 ==> l[|t|..] == l;
    if |l| > 0 {
      assert !AllSpace(l) by {
        assert !IsSpace(l[0]);
      }
      assert |t| > 0;
      assert l[0] == s[i];
      assert !AllSpace(s);
      assert t[0] == l[0];
    } else {
      assert s[..i] == s;
    }
  }

  /** Text without outer spaces is left as it is by `TrimSpace`. */
  lemma TrimSpaceKeeps(s: string)
    requires |s| == 0 || (!IsSpace(s[0]) && !IsSpace(s[|s| - 1]))
    ensures TrimSpace(s) == s
  {
  }

  /**
   * `strings.Replace(s, string(c), t, 1)`: the first `c`, if any, is
   * replaced by `t`.
   */
  function ReplaceFirst(s: string, c: char, t: string): (r: string)
    ensures c !in s ==> r == s
    ensures c in s ==> r == s[..IndexOf(s, c)] + t + s[IndexOf(s, c) + 1..]
  {
    if |s| == 0 then s
    else if s[0] == c then t + s[1..]
    else [s[0]] + ReplaceFirst(s[1..], c, t)
  }
}
