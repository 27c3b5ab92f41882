/**
 * String primitives that the front end (JavaScript) and the back end (Python)
 * both rely on: splitting on a separator, trimming, prefix tests, word
 * splitting and joining, and a lower-case containment test.
 */
module Text {

  /** Concatenation of a list of strings, left to right. */
  function Concat(ss: seq<string>): string
  {
    if |ss| == 0 then "" else Concat(ss[..|ss| - 1]) + ss[|ss| - 1]
  }

  lemma {:induction false} ConcatAppend(xs: seq<string>, ys: seq<string>)
    ensures Concat(xs + ys) == Concat(xs) + Concat(ys)
    decreases |ys|
  {
    if |ys| == 0 {
      assert xs + ys == xs;
    } else {
      var ys' := ys[..|ys| - 1];
      assert (xs + ys)[..|xs + ys| - 1] == xs + ys';
      ConcatAppend(xs, ys');
    }
  }

  lemma ConcatSingle(s: string)
    ensures Concat([s]) == s
  {
    assert [s][..0] == [];
  }

  // ---------------------------------------------------------------------
  // Splitting on a separator (JavaScript `String.prototype.split(sep)` with
  // a one-character string separator): always at least one part; the parts
  // never contain the separator; joining them back gives the input.
  // ---------------------------------------------------------------------

  function Split(s: string, sep: char): (parts: seq<string>)
    ensures |parts| >= 1
  {
    if |s| == 0 then [""]
    else
      var rest := Split(s[1..], sep);
      if s[0] == sep then [""] + rest
      else [[s[0]] + rest[0]] + rest[1..]
  }

  /** The last part of a split: the unterminated tail. */
  function LastPart(s: string, sep: char): string
  {
    var parts := Split(s, sep);
    parts[|parts| - 1]
  }

  /** All parts of a split but the last: the separator-terminated pieces. */
  function CompleteParts(s: string, sep: char): seq<string>
  {
    var parts := Split(s, sep);
    parts[..|parts| - 1]
  }

  /** Joins non-empty `parts` with `sep` between neighbours. */
  function Join(parts: seq<string>, sep: char): string
    requires |parts| >= 1
  {
    if |parts| == 1 then parts[0] else parts[0] + [sep] + Join(parts[1..], sep)
  }

  lemma {:induction false} SplitJoin(s: string, sep: char)
    ensures Join(Split(s, sep), sep) == s
    ensures forall k :: 0 <= k < |Split(s, sep)| ==> sep !in Split(s, sep)[k]
  {
    if |s| > 0 {
      SplitJoin(s[1..], sep);
      var rest := Split(s[1..], sep);
      if s[0] == sep {
        assert ([""] + rest)[1..] == rest;
        assert s == [s[0]] + s[1..];
      } else {
        var parts := [[s[0]] + rest[0]] + rest[1..];
        if |rest| == 1 {
          assert parts == [[s[0]] + rest[0]];
          assert s == [s[0]] + s[1..];
        } else {
          assert parts[1..] == rest[1..];
          assert Join(rest, sep) == rest[0] + [sep] + Join(rest[1..], sep);
          assert s == [s[0]] + s[1..];
        }
      }
    }
  }

  lemma {:induction false} SplitNoSeparator(s: string, sep: char)
    requires sep !in s
    ensures Split(s, sep) == [s]
  {
    if |s| > 0 {
      SplitNoSeparator(s[1..], sep);
      assert [s[0]] + s[1..] == s;
    }
  }

  /** One unfolding step of `Split` on a string given as head and tail. */
  lemma SplitCons(c: char, t: string, sep: char)
    ensures var pt := Split(t, sep);
      Split([c] + t, sep) == if c == sep then [""] + pt else [[c] + pt[0]] + pt[1..]
  {
    assert ([c] + t)[0] == c;
    assert ([c] + t)[1..] == t;
  }

  /**
   * Splitting a concatenation: the last part of `x` is glued to the first
   * part of `y`; every other part is kept. This is the fact behind carrying
   * a residual from one chunk into the next.
   */
  lemma {:induction false} SplitAppend(x: string, y: string, sep: char)
    ensures var px, py := Split(x, sep), Split(y, sep);
      Split(x + y, sep) == px[..|px| - 1] + [px[|px| - 1] + py[0]] + py[1..]
  {
    var px, py := Split(x, sep), Split(y, sep);
    if |x| == 0 {
      assert x + y == y;
      assert px == [""];
      assert px[..0] == [];
      assert px[0] + py[0] == py[0];
      assert [] + [py[0]] + py[1..] == py;
    } else {
      var c, t := x[0], x[1..];
      assert x == [c] + t;
      assert x + y == [c] + (t + y);
      SplitAppend(t, y, sep);
      SplitCons(c, t, sep);
      SplitCons(c, t + y, sep);
      var pr := Split(t, sep);
      var glued := Split(t + y, sep);
      assert glued == pr[..|pr| - 1] + [pr[|pr| - 1] + py[0]] + py[1..];
      if c == sep {
        SplitAppendSepHead(pr, py, glued);
      } else {
        SplitAppendCharHead([c], pr, py, glued);
      }
    }
  }

  lemma SplitAppendSepHead(pr: seq<string>, py: seq<string>, glued: seq<string>)
    requires |pr| >= 1 && |py| >= 1
    requires glued == pr[..|pr| - 1] + [pr[|pr| - 1] + py[0]] + py[1..]
    ensures var px := [""] + pr;
      [""] + glued == px[..|px| - 1] + [px[|px| - 1] + py[0]] + py[1..]
  {
    var px := [""] + pr;
    assert px[..|px| - 1] == [""] + pr[..|pr| - 1];
  }

  lemma SplitAppendCharHead(c: string, pr: seq<string>, py: seq<string>, glued: seq<string>)
    requires |pr| >= 1 && |py| >= 1
    requires glued == pr[..|pr| - 1] + [pr[|pr| - 1] + py[0]] + py[1..]
    ensures var px := [c + pr[0]] + pr[1..];
      [c + glued[0]] + glued[1..] == px[..|px| - 1] + [px[|px| - 1] + py[0]] + py[1..]
  {
    var px := [c + pr[0]] + pr[1..];
    if |pr| == 1 {
      assert glued == [pr[0] + py[0]] + py[1..];
      assert c + (pr[0] + py[0]) == (c + pr[0]) + py[0];
    } else {
      assert glued[0] == pr[0];
      assert glued[1..] == pr[1..|pr| - 1] + [pr[|pr| - 1] + py[0]] + py[1..];
      assert px[..|px| - 1] == [c + pr[0]] + pr[1..|pr| - 1];
    }
  }

  /** A residual without separators glued in front of a chunk only changes the first part. */
  lemma SplitAfterResidual(residual: string, chunk: string, sep: char)
    requires sep !in residual
    ensures var pc := Split(chunk, sep);
      Split(residual + chunk, sep) == [residual + pc[0]] + pc[1..]
  {
    SplitNoSeparator(residual, sep);
    SplitAppend(residual, chunk, sep);
  }

  // ---------------------------------------------------------------------
  // Prefixes
  // ---------------------------------------------------------------------

  predicate StartsWith(s: string, prefix: string)
  {
    |prefix| <= |s| && s[..|prefix|] == prefix
  }

  // ---------------------------------------------------------------------
  // Whitespace and trimming. JavaScript's `trim` and Python's `strip` /
  // `split()` use different whitespace sets, so both are written out.
  // ---------------------------------------------------------------------

  /** WhiteSpace and LineTerminator code points of ECMAScript (`String.prototype.trim`). */
  predicate IsJsSpace(c: char)
  {
    c == '\t' || c == '\n' || c == '\U{000B}' || c == '\U{000C}' || c == '\r' || c == ' '
    || c == '\U{00A0}' || c == '\U{1680}' || ('\U{2000}' <= c <= '\U{200A}')
    || c == '\U{2028}' || c == '\U{2029}' || c == '\U{202F}' || c == '\U{205F}'
    || c == '\U{3000}' || c == '\U{FEFF}'
  }

  /** Code points for which Python's `str.isspace()` holds (used by `strip()` and `split()`). */
  predicate IsPySpace(c: char)
  {
    ('\t' <= c <= '\r') || ('\U{001C}' <= c <= '\U{001F}') || c == ' '
    || c == '\U{0085}' || c == '\U{00A0}' || c == '\U{1680}' || ('\U{2000}' <= c <= '\U{200A}')
    || c == '\U{2028}' || c == '\U{2029}' || c == '\U{202F}' || c == '\U{205F}' || c == '\U{3000}'
  }

  /** Characters that the regular-expression `.` does not match (ECMAScript line terminators). */
  predicate IsLineTerminator(c: char)
  {
    c == '\n' || c == '\r' || c == '\U{2028}' || c == '\U{2029}'
  }

  function TrimStart(s: string, isSpace: char -> bool): (r: string)
    ensures |r| <= |s|
  {
    if |s| > 0 && isSpace(s[0]) then TrimStart(s[1..], isSpace) else s
  }

  /** `TrimStart` drops a leading run of whitespace and nothing else. */
  lemma {:induction false} TrimStartSpec(s: string, isSpace: char -> bool)
    ensures var r := TrimStart(s, isSpace);
      r == s[|s| - |r|..]
      && (forall k :: 0 <= k < |s| - |r| ==> isSpace(s[k]))
      && (|r| > 0 ==> !isSpace(r[0]))
  {
    if |s| > 0 && isSpace(s[0]) {
      TrimStartSpec(s[1..], isSpace);
    }
  }

  function TrimEnd(s: string, isSpace: char -> bool): (r: string)
    ensures |r| <= |s|
  {
    if |s| > 0 && isSpace(s[|s| - 1]) then TrimEnd(s[..|s| - 1], isSpace) else s
  }

  /** `TrimEnd` drops a trailing run of whitespace and nothing else. */
  lemma {:induction false} TrimEndSpec(s: string, isSpace: char -> bool)
    ensures var r := TrimEnd(s, isSpace);
      r == s[..|r|]
      && (forall k :: |r| <= k < |s| ==> isSpace(s[k]))
      && (|r| > 0 ==> !isSpace(r[|r| - 1]))
  {
    if |s| > 0 && isSpace(s[|s| - 1]) {
      TrimEndSpec(s[..|s| - 1], isSpace);
    }
  }

  /** Removes whitespace at both ends; what is left has none at its ends. */
  function Trim(s: string, isSpace: char -> bool): (r: string)
    ensures |r| <= |s|
    ensures |r| > 0 ==> !isSpace(r[0]) && !isSpace(r[|r| - 1])
  {
    var t := TrimStart(s, isSpace);
    TrimStartSpec(s, isSpace);
    TrimEndSpec(t, isSpace);
    TrimEnd(t, isSpace)
  }

  /** `s` is its trimmed middle with whitespace on either side. */
  lemma TrimSplit(s: string, isSpace: char -> bool) returns (pre: string, post: string)
    ensures s == pre + (Trim(s, isSpace) + post)
    ensures forall k :: 0 <= k < |pre| ==> isSpace(pre[k])
    ensures forall k :: 0 <= k < |post| ==> isSpace(post[k])
  {
    var t := TrimStart(s, isSpace);
    var r := TrimEnd(t, isSpace);
    TrimStartSpec(s, isSpace);
    TrimEndSpec(t, isSpace);
    pre, post := s[..|s| - |t|], t[|r|..];
    forall k | 0 <= k < |pre| ensures isSpace(pre[k]) { assert pre[k] == s[k]; }
    forall k | 0 <= k < |post| ensures isSpace(post[k]) { assert post[k] == t[|r| + k]; }
    SuffixCut(s, t);
    PrefixCut(t, r);
  }

  lemma SuffixCut<T>(s: seq<T>, t: seq<T>)
    requires |t| <= |s| && t == s[|s| - |t|..]
    ensures s == s[..|s| - |t|] + t
  {
  }

  lemma PrefixCut<T>(t: seq<T>, r: seq<T>)
    requires |r| <= |t| && r == t[..|r|]
    ensures t == r + t[|r|..]
  {
  }

  function JsTrim(s: string): string { Trim(s, IsJsSpace) }

  function PyStrip(s: string): string { Trim(s, IsPySpace) }

  lemma {:induction false} TrimStartIdle(s: string, isSpace: char -> bool)
    requires |s| == 0 || !isSpace(s[0])
    ensures TrimStart(s, isSpace) == s
  {
  }

  lemma {:induction false} TrimEndIdle(s: string, isSpace: char -> bool)
    requires |s| == 0 || !isSpace(s[|s| - 1])
    ensures TrimEnd(s, isSpace) == s
  {
  }

  /** Trimming twice is trimming once. */
  lemma TrimIdempotent(s: string, isSpace: char -> bool)
    ensures Trim(Trim(s, isSpace), isSpace) == Trim(s, isSpace)
  {
    var r := Trim(s, isSpace);
    TrimStartIdle(r, isSpace);
    TrimEndIdle(r, isSpace);
  }

  // ---------------------------------------------------------------------
  // Python `str.split()` with no argument, and `' '.join(...)`.
  // ---------------------------------------------------------------------

  /** The longest prefix of `s` without whitespace. */
  function Run(s: string): (w: string)
    ensures |w| <= |s| && w == s[..|w|]
    ensures forall k :: 0 <= k < |w| ==> !IsPySpace(w[k])
    ensures |w| < |s| ==> IsPySpace(s[|w|])
  {
    if |s| == 0 || IsPySpace(s[0]) then "" else [s[0]] + Run(s[1..])
  }

  /** A word: non-empty and free of whitespace. */
  predicate IsWord(w: string)
  {
    |w| > 0 && forall k :: 0 <= k < |w| ==> !IsPySpace(w[k])
  }

  /** The maximal whitespace-free runs of `s`, in order (Python `s.split()`). */
  function Words(s: string): (ws: seq<string>)
    ensures forall k :: 0 <= k < |ws| ==> IsWord(ws[k])
    decreases |s|
  {
    if |s| == 0 then []
    else if IsPySpace(s[0]) then Words(s[1..])
    else
      var w := Run(s);
      [w] + Words(s[|w|..])
  }

  /** `' '.join(ws)`. */
  function JoinWithSpace(ws: seq<string>): string
  {
    if |ws| == 0 then "" else if |ws| == 1 then ws[0] else ws[0] + " " + JoinWithSpace(ws[1..])
  }

  lemma {:induction false} RunOfWord(w: string, rest: string)
    requires IsWord(w)
    requires |rest| == 0 || IsPySpace(rest[0])
    ensures Run(w + rest) == w
  {
    if |w| > 1 {
      assert (w + rest)[1..] == w[1..] + rest;
      RunOfWord(w[1..], rest);
    } else {
      assert (w + rest)[1..] == rest;
    }
  }

  lemma {:induction false} WordsOfWord(w: string)
    requires IsWord(w)
    ensures Words(w) == [w]
  {
    RunOfWord(w, "");
    assert w + "" == w;
    assert w[|w|..] == "";
  }

  lemma {:induction false} WordsOfSpaces(s: string)
    requires forall k :: 0 <= k < |s| ==> IsPySpace(s[k])
    ensures Words(s) == []
  {
    if |s| > 0 {
      WordsOfSpaces(s[1..]);
    }
  }

  /** A word followed by whitespace (or nothing) splits off as the first word. */
  lemma WordThenSpace(w: string, rest: string)
    requires IsWord(w)
    requires |rest| == 0 || IsPySpace(rest[0])
    ensures Words(w + rest) == [w] + Words(rest)
  {
    RunOfWord(w, rest);
    assert (w + rest)[|w|..] == rest;
  }

  /** Text after a whitespace character does not change the first run. */
  lemma {:induction false} RunBeforeSpace(x: string, y: string)
    requires |x| > 0 && !IsPySpace(x[0]) && |Run(x)| < |x|
    ensures Run(x + y) == Run(x)
  {
    var w := Run(x);
    assert IsWord(w);
    assert x + y == w + (x[|w|..] + y);
    RunOfWord(w, x[|w|..] + y);
  }

  /** A leading whitespace character contributes no word, before or after appending. */
  lemma WordsSkipSpace(x: string, y: string)
    requires |x| > 0 && IsPySpace(x[0])
    ensures Words(x + y) == Words(x[1..] + y) && Words(x) == Words(x[1..])
  {
    assert (x + y)[1..] == x[1..] + y;
  }

  /** A leading word followed by whitespace splits off, before or after appending. */
  lemma WordsSkipWord(x: string, y: string)
    requires |x| > 0 && !IsPySpace(x[0]) && |Run(x)| < |x|
    ensures Words(x + y) == [Run(x)] + Words(x[|Run(x)|..] + y)
    ensures Words(x) == [Run(x)] + Words(x[|Run(x)|..])
  {
    var w := Run(x);
    RunBeforeSpace(x, y);
    assert (x + y)[|w|..] == x[|w|..] + y;
  }

  /** A single word followed by text starting with whitespace. */
  lemma WordsOfWordThen(x: string, y: string)
    requires IsWord(x) && |y| > 0 && IsPySpace(y[0])
    ensures Words(x + y) == Words(x) + Words(y)
  {
    WordThenSpace(x, y);
    WordsOfWord(x);
  }

  /** Splitting words distributes over a concatenation cut at whitespace. */
  lemma {:induction false} WordsAppend(x: string, y: string)
    requires |x| == 0 || |y| == 0 || IsPySpace(x[|x| - 1]) || IsPySpace(y[0])
    ensures Words(x + y) == Words(x) + Words(y)
    decreases |x|
  {
    if |x| == 0 {
      assert x + y == y;
    } else if |y| == 0 {
      assert x + y == x;
    } else if IsPySpace(x[0]) {
      WordsSkipSpace(x, y);
      WordsAppend(x[1..], y);
    } else if |Run(x)| == |x| {
      // x is a single word, so y must start with whitespace
      assert Run(x) == x;
      WordsOfWordThen(x, y);
    } else {
      var w := Run(x);
      WordsSkipWord(x, y);
      WordsAppend(x[|w|..], y);
      assert [w] + (Words(x[|w|..]) + Words(y)) == ([w] + Words(x[|w|..])) + Words(y);
    }
  }

  /** Whitespace around a string contributes no words. */
  lemma WordsIgnoreSurroundingSpace(pre: string, r: string, post: string)
    requires forall k :: 0 <= k < |pre| ==> IsPySpace(pre[k])
    requires forall k :: 0 <= k < |post| ==> IsPySpace(post[k])
    ensures Words(pre + (r + post)) == Words(r)
  {
    WordsOfSpaces(pre);
    WordsOfSpaces(post);
    WordsAppend(r, post);
    assert Words(r) + [] == Words(r);
    WordsAppend(pre, r + post);
  }

  /** `strip()` before `split()` changes nothing. */
  lemma WordsOfStrip(s: string)
    ensures Words(PyStrip(s)) == Words(s)
  {
    var pre, post := TrimSplit(s, IsPySpace);
    WordsIgnoreSurroundingSpace(pre, PyStrip(s), post);
  }

  /** Joining words with single spaces and splitting again gives the words back. */
  lemma {:induction false} WordsOfJoin(ws: seq<string>)
    requires forall k :: 0 <= k < |ws| ==> IsWord(ws[k])
    ensures Words(JoinWithSpace(ws)) == ws
  {
    if |ws| == 1 {
      WordsOfWord(ws[0]);
    } else if |ws| > 1 {
      WordsOfJoin(ws[1..]);
      var tail := JoinWithSpace(ws[1..]);
      assert ws[0] + " " + tail == ws[0] + (" " + tail);
      WordsAppend(ws[0], " " + tail);
      WordsOfWord(ws[0]);
      assert (" " + tail)[1..] == tail;
      assert [ws[0]] + ws[1..] == ws;
    }
  }

  /** `' '.join(s.split()[:n])`: at most the first `n` words of `s`. */
  function FirstWords(s: string, n: nat): string
  {
    var ws := Words(s);
    JoinWithSpace(if |ws| <= n then ws else ws[..n])
  }

  lemma FirstWordsAreAPrefix(s: string, n: nat)
    ensures var ws := Words(s);
      Words(FirstWords(s, n)) == (if |ws| <= n then ws else ws[..n])
    ensures |Words(FirstWords(s, n))| <= n
  {
    var ws := Words(s);
    WordsOfJoin(if |ws| <= n then ws else ws[..n]);
  }

  // ---------------------------------------------------------------------
  // Containment, and the lower-case test `"error" in name.lower()`.
  // ---------------------------------------------------------------------

  predicate HasInfixAt(s: string, t: string, i: nat)
  {
    i + |t| <= |s| && s[i..i + |t|] == t
  }

  /** `t in s` for strings. */
  function Contains(s: string, t: string): (b: bool)
    ensures b <==> exists i: nat :: HasInfixAt(s, t, i)
    decreases |s|
  {
    if |t| > |s| then
      assert forall i: nat :: !HasInfixAt(s, t, i);
      false
    else if s[..|t|] == t then
      assert HasInfixAt(s, t, 0);
      true
    else
      var r := Contains(s[1..], t);
      assert forall i: nat :: HasInfixAt(s[1..], t, i) <==> HasInfixAt(s, t, i + 1) by {
        forall i: nat ensures HasInfixAt(s[1..], t, i) <==> HasInfixAt(s, t, i + 1) {
          if i + 1 + |t| <= |s| {
            assert s[1..][i..i + |t|] == s[i + 1..i + 1 + |t|];
          }
        }
      }
      assert !HasInfixAt(s, t, 0);
      assert (exists i: nat :: HasInfixAt(s, t, i)) ==> exists i: nat :: HasInfixAt(s[1..], t, i) by {
        if exists i: nat :: HasInfixAt(s, t, i) {
          var i: nat :| HasInfixAt(s, t, i);
          assert i > 0;
          assert HasInfixAt(s[1..], t, i - 1);
        }
      }
      r
  }

  /** Lower-cases the ASCII letters A-Z and leaves every other character alone. */
  function AsciiLower(s: string): (r: string)
    ensures |r| == |s|
    ensures forall k :: 0 <= k < |s| ==>
      r[k] == (if 'A' <= s[k] <= 'Z' then (s[k] as int + 32) as char else s[k])
  {
    if |s| == 0 then "" else
      [if 'A' <= s[0] <= 'Z' then (s[0] as int + 32) as char else s[0]] + AsciiLower(s[1..])
  }

  /**
   * Python's `"error" in name.lower()`. Only ASCII letters lower-case to
   * e, r or o, so lower-casing just A-Z decides this test exactly.
   */
  predicate MentionsError(name: string)
  {
    Contains(AsciiLower(name), "error")
  }

  /** A string whose only `r` or `R`, if any, is its first character cannot contain "error" once lower-cased. */
  lemma NoErrorWithoutLaterR(s: string)
    requires |s| > 0 && 'r' !in s[1..] && 'R' !in s[1..]
    ensures !MentionsError(s)
  {
    var low := AsciiLower(s);
    forall i: nat ensures !HasInfixAt(low, "error", i) {
      if i + 5 <= |low| {
        assert s[1..][i] == s[i + 1];
        assert low[i..i + 5][1] == low[i + 1];
      }
    }
  }
}
