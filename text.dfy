/**
 * The JavaScript string operations the chat component relies on, written out
 * over `seq<char>`: `trim`, `split` on one character, `join`, and `split(/\s+/)`.
 */
module Text {

  /** White space as JavaScript defines it: what `trim` strips and what `\s` matches. */
  predicate IsWs(c: char) {
    || c == ' ' || c == '\t' || c == '\n' || c == '\r'
    || c == '\U{000B}' || c == '\U{000C}' || c == '\U{00A0}' || c == '\U{1680}'
    || ('\U{2000}' <= c <= '\U{200A}')
    || c == '\U{2028}' || c == '\U{2029}' || c == '\U{202F}' || c == '\U{205F}'
    || c == '\U{3000}' || c == '\U{FEFF}'
  }

  predicate AllWs(s: string) {
    forall i :: 0 <= i < |s| ==> IsWs(s[i])
  }

  predicate NoWs(s: string) {
    forall i :: 0 <= i < |s| ==> !IsWs(s[i])
  }

  // ---------------------------------------------------------------- trim

  /** Drops the leading run of white space. */
  function TrimStart(s: string): (r: string)
    ensures |r| <= |s|
  {
    if s != "" && IsWs(s[0]) then TrimStart(s[1..]) else s
  }

  /** Drops the trailing run of white space. */
  function TrimEnd(s: string): (r: string)
    ensures |r| <= |s|
  {
    if s != "" && IsWs(s[|s| - 1]) then TrimEnd(s[..|s| - 1]) else s
  }

  /** `String.prototype.trim`. */
  function Trim(s: string): (r: string)
    ensures |r| <= |s|
  {
    TrimEnd(TrimStart(s))
  }

  /** `TrimStart` leaves a suffix that starts with a non-white-space character and drops only white space. */
  lemma {:induction false} TrimStartSpec(s: string)
    ensures var r := TrimStart(s);
      && r == s[|s| - |r|..]
      && AllWs(s[..|s| - |r|])
      && (r != "" ==> !IsWs(r[0]))
  {
    if s != "" && IsWs(s[0]) {
      TrimStartSpec(s[1..]);
      var r := TrimStart(s);
      var n := |s| - |r|;
      assert r == s[1..][|s| - 1 - |r|..];
      forall i | 0 <= i < n ensures IsWs(s[..n][i]) {
        if i > 0 {
          assert s[..n][i] == s[1..][..n - 1][i - 1];
        }
      }
    }
  }

  /** `TrimEnd` leaves a prefix that ends with a non-white-space character and drops only white space. */
  lemma {:induction false} TrimEndSpec(s: string)
    ensures var r := TrimEnd(s);
      && r == s[..|r|]
      && AllWs(s[|r|..])
      && (r != "" ==> !IsWs(r[|r| - 1]))
  {
    if s != "" && IsWs(s[|s| - 1]) {
      var s' := s[..|s| - 1];
      TrimEndSpec(s');
      var r := TrimEnd(s);
      assert r == s'[..|r|];
      forall i | |r| <= i < |s| ensures IsWs(s[i]) {
        if i < |s| - 1 {
          assert s[i] == s'[|r|..][i - |r|];
        }
      }
    }
  }

  /** Trimmed text is empty exactly for all-white-space text, and otherwise has non-white-space ends. */
  lemma TrimSpec(s: string)
    ensures Trim(s) == "" <==> AllWs(s)
    ensures Trim(s) != "" ==> !IsWs(Trim(s)[0]) && !IsWs(Trim(s)[|Trim(s)| - 1])
  {
    var t := TrimStart(s);
    var r := TrimEnd(t);
    TrimStartSpec(s);
    TrimEndSpec(t);
    if r == "" {
      assert t == t[|r|..];
      assert s == s[..|s| - |t|] + t;
    }
    if AllWs(s) {
      assert t == s[|s| - |t|..];
      assert AllWs(t);
      assert t == "";
    }
    if r != "" {
      assert r[0] == t[0];
    }
  }

  /** All characters of `s` except its white space, in order. */
  function RemoveWs(s: string): string {
    if s == "" then "" else (if IsWs(s[0]) then "" else [s[0]]) + RemoveWs(s[1..])
  }

  lemma {:induction false} RemoveWsAppend(a: string, b: string)
    ensures RemoveWs(a + b) == RemoveWs(a) + RemoveWs(b)
  {
    if a != "" {
      assert (a + b)[0] == a[0];
      assert (a + b)[1..] == a[1..] + b;
      RemoveWsAppend(a[1..], b);
      var h := if IsWs(a[0]) then "" else [a[0]];
      calc {
        RemoveWs(a + b);
        h + RemoveWs(a[1..] + b);
        h + (RemoveWs(a[1..]) + RemoveWs(b));
        (h + RemoveWs(a[1..])) + RemoveWs(b);
        RemoveWs(a) + RemoveWs(b);
      }
    } else {
      assert a + b == b;
    }
  }

  lemma {:induction false} RemoveWsOfWs(s: string)
    requires AllWs(s)
    ensures RemoveWs(s) == ""
  {
    if s != "" {
      assert AllWs(s[1..]) by {
        forall i | 0 <= i < |s[1..]| ensures IsWs(s[1..][i]) {
          assert s[1..][i] == s[i + 1];
        }
      }
      RemoveWsOfWs(s[1..]);
    }
  }

  /** Trimming never removes a character that is not white space. */
  lemma TrimKeepsContent(s: string)
    ensures RemoveWs(Trim(s)) == RemoveWs(s)
  {
    var t := TrimStart(s);
    var n := |s| - |t|;
    TrimStartSpec(s);
    TrimEndSpec(t);
    assert s == s[..n] + t;
    RemoveWsAppend(s[..n], t);
    RemoveWsOfWs(s[..n]);
    var r := TrimEnd(t);
    assert t == r + t[|r|..];
    RemoveWsAppend(r, t[|r|..]);
    RemoveWsOfWs(t[|r|..]);
  }

  lemma {:induction false} TrimStartIdle(s: string)
    requires s == "" || !IsWs(s[0])
    ensures TrimStart(s) == s
  {
  }

  /** A string with non-white-space ends, or the empty string, is its own trim. */
  lemma TrimIdle(s: string)
    requires s == "" || (!IsWs(s[0]) && !IsWs(s[|s| - 1]))
    ensures Trim(s) == s
  {
    TrimStartIdle(s);
  }

  /** Trimming twice is trimming once. */
  lemma TrimIdempotent(s: string)
    ensures Trim(Trim(s)) == Trim(s)
  {
    var r := Trim(s);
    TrimSpec(s);
    TrimStartIdle(r);
  }

  // ---------------------------------------------------------------- split and join

  /** `s.split(sep)` for a one-character separator: the pieces between separators. */
  function Split(s: string, sep: char): (r: seq<string>)
    ensures |r| >= 1
    ensures forall i :: 0 <= i < |r| ==> sep !in r[i]
  {
    if s == "" then [""]
    else
      var rest := Split(s[1..], sep);
      if s[0] == sep then [""] + rest else [[s[0]] + rest[0]] + rest[1..]
  }

  /** `parts.join(sep)`. */
  function Join(parts: seq<string>, sep: string): string {
    if |parts| == 0 then ""
    else if |parts| == 1 then parts[0]
    else parts[0] + sep + Join(parts[1..], sep)
  }

  /** `s.split(sep, limit)`: JavaScript keeps only the first `limit` pieces. */
  function SplitLimit(s: string, sep: char, limit: nat): (r: seq<string>)
    ensures |r| <= limit && |r| <= |Split(s, sep)|
    ensures r == Split(s, sep)[..|r|]
    ensures |r| < limit ==> r == Split(s, sep)
  {
    var p := Split(s, sep);
    if |p| <= limit then p else p[..limit]
  }

  /** Joining the pieces with the separator gives back the original text. */
  lemma {:induction false} JoinSplit(s: string, sep: char)
    ensures Join(Split(s, sep), [sep]) == s
  {
    if s != "" {
      var rest := Split(s[1..], sep);
      JoinSplit(s[1..], sep);
      if s[0] == sep {
        assert Split(s, sep) == [""] + rest;
      } else {
        var r := [[s[0]] + rest[0]] + rest[1..];
        if |rest| == 1 {
          assert Join(r, [sep]) == [s[0]] + rest[0];
        } else {
          assert Join(rest, [sep]) == rest[0] + [sep] + Join(rest[1..], [sep]);
          assert r[1..] == rest[1..];
        }
      }
    }
  }

  lemma {:induction false} SplitNoSep(a: string, sep: char, tail: string)
    requires sep !in a
    ensures Split(a + tail, sep) == [a + Split(tail, sep)[0]] + Split(tail, sep)[1..]
  {
    if a != "" {
      assert (a + tail)[0] == a[0];
      assert (a + tail)[1..] == a[1..] + tail;
      SplitNoSep(a[1..], sep, tail);
      assert [a[0]] + (a[1..] + Split(tail, sep)[0]) == a + Split(tail, sep)[0];
    } else {
      var p := Split(tail, sep);
      assert a + tail == tail;
      assert a + p[0] == p[0];
      assert p == [p[0]] + p[1..];
    }
  }

  /** Splitting on a character the string does not contain gives the whole string, as one piece. */
  lemma SplitAbsent(s: string, sep: char)
    requires sep !in s
    ensures Split(s, sep) == [s]
  {
    SplitNoSep(s, sep, "");
    assert s + "" == s;
  }

  /** Splitting a join of separator-free pieces gives back the pieces. */
  lemma {:induction false} SplitJoin(parts: seq<string>, sep: char)
    requires |parts| >= 1
    requires forall i :: 0 <= i < |parts| ==> sep !in parts[i]
    ensures Split(Join(parts, [sep]), sep) == parts
  {
    if |parts| == 1 {
      SplitNoSep(parts[0], sep, "");
      assert parts[0] + "" == parts[0];
      var e := Split("", sep);
      assert e == [""];
      assert e[1..] == [];
      assert parts[0] + e[0] == parts[0];
      assert Split(parts[0], sep) == [parts[0]] == parts;
    } else {
      var tail := [sep] + Join(parts[1..], [sep]);
      assert Join(parts, [sep]) == parts[0] + tail;
      SplitNoSep(parts[0], sep, tail);
      SplitJoin(parts[1..], sep);
      assert tail[1..] == Join(parts[1..], [sep]);
      var p := Split(tail, sep);
      assert p == [""] + parts[1..];
      assert parts[0] + p[0] == parts[0];
      assert p[1..] == parts[1..];
      assert [parts[0]] + parts[1..] == parts;
    }
  }

  // ---------------------------------------------------------------- split on /\s+/

  /** `s.split(/\s+/)`: the pieces between maximal runs of white space. */
  function SplitWs(s: string): (r: seq<string>)
    ensures |r| >= 1
    decreases |s|
  {
    if s == "" then [""]
    else if IsWs(s[0]) then [""] + SplitWs(TrimStart(s[1..]))
    else
      var rest := SplitWs(s[1..]);
      [[s[0]] + rest[0]] + rest[1..]
  }

  /** A word without white space splits into itself alone. */
  lemma {:induction false} SplitWsWord(s: string)
    requires NoWs(s)
    ensures SplitWs(s) == [s]
    decreases |s|
  {
    if s != "" {
      assert NoWs(s[1..]) by {
        forall i | 0 <= i < |s[1..]| ensures !IsWs(s[1..][i]) {
          assert s[1..][i] == s[i + 1];
        }
      }
      SplitWsWord(s[1..]);
      assert [s[0]] + s[1..] == s;
    }
  }

  /** A white-space-free prefix glues onto the first piece of the white-space split that follows it. */
  lemma {:induction false} SplitWsNoWsPrefix(a: string, tail: string)
    requires NoWs(a)
    ensures SplitWs(a + tail) == [a + SplitWs(tail)[0]] + SplitWs(tail)[1..]
    decreases |a|
  {
    if a != "" {
      assert (a + tail)[0] == a[0];
      assert (a + tail)[1..] == a[1..] + tail;
      assert NoWs(a[1..]) by {
        forall i | 0 <= i < |a[1..]| ensures !IsWs(a[1..][i]) {
          assert a[1..][i] == a[i + 1];
        }
      }
      SplitWsNoWsPrefix(a[1..], tail);
      assert [a[0]] + (a[1..] + SplitWs(tail)[0]) == a + SplitWs(tail)[0];
    } else {
      var p := SplitWs(tail);
      assert a + tail == tail;
      assert a + p[0] == p[0];
      assert p == [p[0]] + p[1..];
    }
  }

  /** Words joined by single spaces start with the first word's first character and end with the last word's last. */
  lemma {:induction false} JoinWordsEnds(words: seq<string>)
    requires |words| >= 1
    requires forall i :: 0 <= i < |words| ==> words[i] != ""
    ensures var j := Join(words, " ");
      && j != "" && j[0] == words[0][0]
      && j[|j| - 1] == words[|words| - 1][|words[|words| - 1]| - 1]
  {
    if |words| > 1 {
      JoinWordsEnds(words[1..]);
      var r := Join(words[1..], " ");
      assert Join(words, " ") == words[0] + " " + r;
    }
  }

  /** Splitting words joined by single spaces on white space gives back the words. */
  lemma {:induction false} SplitWsJoin(words: seq<string>)
    requires |words| >= 1
    requires forall i :: 0 <= i < |words| ==> words[i] != "" && NoWs(words[i])
    ensures SplitWs(Join(words, " ")) == words
  {
    if |words| == 1 {
      SplitWsWord(words[0]);
    } else {
      var rest := Join(words[1..], " ");
      var tail := " " + rest;
      assert Join(words, " ") == words[0] + tail;
      SplitWsNoWsPrefix(words[0], tail);
      SplitWsJoin(words[1..]);
      JoinWordsEnds(words[1..]);
      assert tail[0] == ' ' && tail[1..] == rest;
      TrimStartIdle(rest);
      assert SplitWs(tail) == [""] + words[1..];
      assert words[0] + "" == words[0];
      assert [words[0]] + words[1..] == words;
    }
  }

  /** Words with a run of white space between each two: `w0 + s0 + w1 + ... + wn`. */
  function Interleave(words: seq<string>, seps: seq<string>): string
    requires |seps| == |words| - 1
    decreases |words|
  {
    if |words| == 1 then words[0] else words[0] + seps[0] + Interleave(words[1..], seps[1..])
  }

  /** `trimStart` drops a white-space run in front of text that starts with non-white-space, and nothing more. */
  lemma {:induction false} TrimStartWsPrefix(w: string, r: string)
    requires AllWs(w) && (r == "" || !IsWs(r[0]))
    ensures TrimStart(w + r) == r
    decreases |w|
  {
    if w == "" {
      assert w + r == r;
      TrimStartIdle(r);
    } else {
      assert (w + r)[0] == w[0];
      assert (w + r)[1..] == w[1..] + r;
      assert AllWs(w[1..]) by {
        forall i | 0 <= i < |w[1..]| ensures IsWs(w[1..][i]) {
          assert w[1..][i] == w[i + 1];
        }
      }
      TrimStartWsPrefix(w[1..], r);
    }
  }

  /** A white-space run in front of text that starts with non-white-space opens the split with one empty piece. */
  lemma SplitWsAfterRun(sep: string, rest: string)
    requires sep != "" && AllWs(sep) && rest != "" && !IsWs(rest[0])
    ensures SplitWs(sep + rest) == [""] + SplitWs(rest)
  {
    assert (sep + rest)[0] == sep[0] && (sep + rest)[1..] == sep[1..] + rest;
    assert AllWs(sep[1..]) by {
      forall i | 0 <= i < |sep[1..]| ensures IsWs(sep[1..][i]) {
        assert sep[1..][i] == sep[i + 1];
      }
    }
    TrimStartWsPrefix(sep[1..], rest);
  }

  /** Interleaved text starts with the first word. */
  lemma InterleaveStart(words: seq<string>, seps: seq<string>)
    requires |seps| == |words| - 1 && words[0] != ""
    ensures Interleave(words, seps) != "" && Interleave(words, seps)[0] == words[0][0]
  {
    if |words| > 1 {
      assert Interleave(words, seps) == words[0] + (seps[0] + Interleave(words[1..], seps[1..]));
    }
  }

  /** `split(/\s+/)` cuts exactly at the white-space runs between words, whatever the runs hold. */
  lemma {:induction false} SplitWsRuns(words: seq<string>, seps: seq<string>)
    requires |seps| == |words| - 1
    requires forall i :: 0 <= i < |words| ==> words[i] != "" && NoWs(words[i])
    requires forall i :: 0 <= i < |seps| ==> seps[i] != "" && AllWs(seps[i])
    ensures SplitWs(Interleave(words, seps)) == words
    decreases |words|
  {
    if |words| == 1 {
      SplitWsWord(words[0]);
    } else {
      var rest := Interleave(words[1..], seps[1..]);
      var tail := seps[0] + rest;
      assert Interleave(words, seps) == words[0] + tail;
      SplitWsNoWsPrefix(words[0], tail);
      SplitWsRuns(words[1..], seps[1..]);
      InterleaveStart(words[1..], seps[1..]);
      SplitWsAfterRun(seps[0], rest);
      assert words[0] + "" == words[0];
      assert [words[0]] + words[1..] == words;
    }
  }

  /** No piece of a white-space split contains white space. */
  lemma {:induction false} SplitWsNoWs(s: string)
    ensures forall i :: 0 <= i < |SplitWs(s)| ==> NoWs(SplitWs(s)[i])
    decreases |s|
  {
    if s != "" {
      if IsWs(s[0]) {
        SplitWsNoWs(TrimStart(s[1..]));
      } else {
        SplitWsNoWs(s[1..]);
        var rest := SplitWs(s[1..]);
        assert NoWs(rest[0]);
        assert NoWs([s[0]] + rest[0]);
      }
    }
  }

  /** The strings one after another: the accumulated `responseData += data`, and the content of a list of words. */
  function Concat(strs: seq<string>): string {
    if strs == [] then "" else strs[0] + Concat(strs[1..])
  }

  /** Concatenating one more string at the end. */
  lemma {:induction false} ConcatSnoc(strs: seq<string>, s: string)
    ensures Concat(strs + [s]) == Concat(strs) + s
  {
    if strs == [] {
      assert [] + [s] == [s];
      assert Concat([s]) == s + Concat([]);
    } else {
      assert (strs + [s])[1..] == strs[1..] + [s];
      ConcatSnoc(strs[1..], s);
    }
  }

  /** The pieces of a white-space split hold exactly the non-white-space characters, in order. */
  lemma {:induction false} ConcatSplitWs(s: string)
    ensures Concat(SplitWs(s)) == RemoveWs(s)
    decreases |s|
  {
    if s != "" {
      if IsWs(s[0]) {
        var t := TrimStart(s[1..]);
        TrimStartSpec(s[1..]);
        ConcatSplitWs(t);
        var n := |s[1..]| - |t|;
        assert s[1..] == s[1..][..n] + t;
        RemoveWsAppend(s[1..][..n], t);
        RemoveWsOfWs(s[1..][..n]);
        assert Concat([""] + SplitWs(t)) == Concat(SplitWs(t));
      } else {
        var rest := SplitWs(s[1..]);
        ConcatSplitWs(s[1..]);
        var r := [[s[0]] + rest[0]] + rest[1..];
        assert r[1..] == rest[1..];
        assert Concat(rest) == rest[0] + Concat(rest[1..]);
      }
    }
  }

  /** Splitting trimmed, non-empty text on white space gives only non-empty pieces. */
  lemma {:induction false} SplitWsNonEmpty(s: string)
    requires s != "" && !IsWs(s[0]) && !IsWs(s[|s| - 1])
    ensures forall i :: 0 <= i < |SplitWs(s)| ==> SplitWs(s)[i] != ""
    decreases |s|
  {
    var u := s[1..];
    var rest := SplitWs(u);
    if u != "" {
      if IsWs(u[0]) {
        var t := TrimStart(u[1..]);
        TrimStartSpec(u[1..]);
        assert t == u[1..][|u[1..]| - |t|..];
        assert t != "" by {
          assert u[1..][|u| - 2] == u[|u| - 1] == s[|s| - 1];
          assert !AllWs(u[1..]);
        }
        assert t[|t| - 1] == s[|s| - 1];
        SplitWsNonEmpty(t);
        assert rest == [""] + SplitWs(t);
      } else {
        assert u[|u| - 1] == s[|s| - 1];
        SplitWsNonEmpty(u);
      }
    }
  }

  /** `RemoveWs` ignores the single spaces that `Join(parts, " ")` puts between parts. */
  lemma {:induction false} RemoveWsJoin(parts: seq<string>)
    ensures RemoveWs(Join(parts, " ")) == RemoveWs(Concat(parts))
  {
    if |parts| == 1 {
      assert parts[1..] == [];
      assert Concat(parts) == parts[0] + Concat([]) == parts[0] + "";
      assert parts[0] + "" == parts[0];
    } else if |parts| > 1 {
      RemoveWsJoin(parts[1..]);
      RemoveWsAppend(parts[0] + " ", Join(parts[1..], " "));
      RemoveWsAppend(parts[0], " ");
      RemoveWsAppend(parts[0], Concat(parts[1..]));
      assert RemoveWs(" ") == "";
    }
  }
}
