/** Text helpers with the meaning of the Python string operations the build
    scripts use: `in` on strings, `str.replace`, `str.startswith`,
    `str.split('\n')` / `'\n'.join`, `str.rstrip()` and `str.lower()` on ASCII. */
module Text {

  /** `p` is a prefix of `s` (Python `s.startswith(p)`). */
  predicate IsPrefix(p: string, s: string)
  {
    |p| <= |s| && s[..|p|] == p
  }

  /** `p` is a suffix of `s` (Python `s.endswith(p)`). */
  predicate IsSuffix(p: string, s: string)
  {
    |p| <= |s| && s[|s| - |p|..] == p
  }

  /** Python `p in s`: some position of `s` starts with `p`. */
  predicate Contains(s: string, p: string)
    decreases |s|
  {
    IsPrefix(p, s) || (|s| > 0 && Contains(s[1..], p))
  }

  /** Python `s.replace(pat, rep)` for a non-empty `pat`: every occurrence,
      scanned left to right and without overlap, is replaced. */
  function ReplaceAll(s: string, pat: string, rep: string): string
    requires |pat| > 0
    decreases |s|
  {
    if IsPrefix(pat, s) then rep + ReplaceAll(s[|pat|..], pat, rep)
    else if |s| == 0 then s
    else [s[0]] + ReplaceAll(s[1..], pat, rep)
  }

  /** Python `'\n' in s` for a single character. */
  predicate HasChar(s: string, c: char)
  {
    exists i :: 0 <= i < |s| && s[i] == c
  }

  /** Python `s.split('\n')`: always at least one piece, none holding a newline. */
  function SplitLines(s: string): (r: seq<string>)
    ensures |r| > 0
    ensures forall k :: 0 <= k < |r| ==> !HasChar(r[k], '\n')
    decreases |s|
  {
    if |s| == 0 then [""]
    else
      var rest := SplitLines(s[1..]);
      if s[0] == '\n' then [""] + rest
      else [[s[0]] + rest[0]] + rest[1..]
  }

  /** Python `'\n'.join(lines)` on a non-empty list. */
  function JoinLines(lines: seq<string>): string
    requires |lines| > 0
    decreases |lines|
  {
    if |lines| == 1 then lines[0] else lines[0] + "\n" + JoinLines(lines[1..])
  }

  /** The characters `str.rstrip()` removes: those of Python's
      `str.isspace()`, i.e. the ASCII tab to carriage return, the four
      information separators 0x1C-0x1F, the space, NEL, no-break space and
      the Unicode space and line/paragraph separators. */
  predicate IsSpace(c: char)
  {
    var n := c as int;
    || (0x09 <= n <= 0x0D) || (0x1C <= n <= 0x20) || n == 0x85 || n == 0xA0
    || n == 0x1680 || (0x2000 <= n <= 0x200A) || n == 0x2028 || n == 0x2029
    || n == 0x202F || n == 0x205F || n == 0x3000
  }

  /** Python `s.rstrip()`: the longest prefix that does not end in white space. */
  function RStrip(s: string): (r: string)
    ensures IsPrefix(r, s)
    ensures |r| == 0 || !IsSpace(r[|r| - 1])
    ensures forall k :: |r| <= k < |s| ==> IsSpace(s[k])
  {
    if |s| == 0 || !IsSpace(s[|s| - 1]) then s else RStrip(s[..|s| - 1])
  }

  /** Python `c.lower()` on an ASCII character. */
  function Lower(c: char): char
  {
    if 'A' <= c <= 'Z' then (c as int - 'A' as int + 'a' as int) as char else c
  }

  /** Python `s.replace('\\', '/')`. */
  function Slashes(s: string): (r: string)
    ensures |r| == |s|
    ensures forall k :: 0 <= k < |s| ==> r[k] == (if s[k] == '\\' then '/' else s[k])
  {
    if |s| == 0 then "" else [if s[0] == '\\' then '/' else s[0]] + Slashes(s[1..])
  }

  // ---------------------------------------------------------------------
  // Lemmas about Contains

  /** An occurrence at position `i` is an occurrence. */
  lemma {:induction false} ContainsAt(s: string, p: string, i: nat)
    requires i + |p| <= |s| && s[i..i + |p|] == p
    ensures Contains(s, p)
    decreases i
  {
    if i == 0 {
      assert s[..|p|] == p;
    } else {
      assert s[1..][i - 1..i - 1 + |p|] == s[i..i + |p|];
      ContainsAt(s[1..], p, i - 1);
    }
  }

  /** Every occurrence sits at some position. */
  lemma {:induction false} ContainsWitness(s: string, p: string) returns (i: nat)
    requires Contains(s, p)
    ensures i + |p| <= |s| && s[i..i + |p|] == p
    decreases |s|
  {
    if IsPrefix(p, s) {
      i := 0;
    } else {
      var j := ContainsWitness(s[1..], p);
      assert s[1..][j..j + |p|] == s[j + 1..j + 1 + |p|];
      i := j + 1;
    }
  }

  /** A text contains what any of its parts contains. */
  lemma ContainsInConcat(a: string, b: string, p: string)
    requires Contains(a, p) || Contains(b, p)
    ensures Contains(a + b, p)
  {
    if Contains(a, p) {
      var i := ContainsWitness(a, p);
      assert (a + b)[i..i + |p|] == a[i..i + |p|];
      ContainsAt(a + b, p, i);
    } else {
      var i := ContainsWitness(b, p);
      assert (a + b)[|a| + i..|a| + i + |p|] == b[i..i + |p|];
      ContainsAt(a + b, p, |a| + i);
    }
  }

  /** Containment is transitive. */
  lemma ContainsTrans(s: string, t: string, u: string)
    requires Contains(s, t) && Contains(t, u)
    ensures Contains(s, u)
  {
    var i := ContainsWitness(s, t);
    var j := ContainsWitness(t, u);
    forall k | 0 <= k < |u|
      ensures s[i + j + k] == u[k]
    {
      assert s[i + j + k] == s[i..i + |t|][j + k] == t[j + k];
      assert t[j + k] == t[j..j + |u|][k];
    }
    assert s[i + j..i + j + |u|] == u;
    ContainsAt(s, u, i + j);
  }

  // ---------------------------------------------------------------------
  // Lemmas about ReplaceAll

  /** Replacing a pattern that does not occur changes nothing. */
  lemma {:induction false} ReplaceAbsent(s: string, pat: string, rep: string)
    requires |pat| > 0 && !Contains(s, pat)
    ensures ReplaceAll(s, pat, rep) == s
    decreases |s|
  {
    if |s| > 0 {
      ReplaceAbsent(s[1..], pat, rep);
      assert [s[0]] + s[1..] == s;
    }
  }

  /** Replacing a pattern that occurs leaves its replacement in the text. */
  lemma {:induction false} ReplaceInserts(s: string, pat: string, rep: string)
    requires |pat| > 0 && Contains(s, pat)
    ensures Contains(ReplaceAll(s, pat, rep), rep)
    decreases |s|
  {
    if IsPrefix(pat, s) {
      ContainsAt(rep, rep, 0);
      ContainsInConcat(rep, ReplaceAll(s[|pat|..], pat, rep), rep);
    } else {
      ReplaceInserts(s[1..], pat, rep);
      ContainsInConcat([s[0]], ReplaceAll(s[1..], pat, rep), rep);
    }
  }

  /** A replacement longer than its pattern makes a text holding the pattern longer. */
  lemma {:induction false} ReplaceGrows(s: string, pat: string, rep: string)
    requires |pat| > 0 && |rep| > |pat| && Contains(s, pat)
    ensures |ReplaceAll(s, pat, rep)| > |s|
    decreases |s|
  {
    ReplaceNotShorter(s, pat, rep);
    if IsPrefix(pat, s) {
      ReplaceNotShorter(s[|pat|..], pat, rep);
    } else {
      ReplaceGrows(s[1..], pat, rep);
    }
  }

  /** A replacement at least as long as its pattern never shortens a text. */
  lemma {:induction false} ReplaceNotShorter(s: string, pat: string, rep: string)
    requires |pat| > 0 && |rep| >= |pat|
    ensures |ReplaceAll(s, pat, rep)| >= |s|
    decreases |s|
  {
    if IsPrefix(pat, s) {
      ReplaceNotShorter(s[|pat|..], pat, rep);
    } else if |s| > 0 {
      ReplaceNotShorter(s[1..], pat, rep);
    }
  }

  /** A replacement shorter than its pattern makes a text holding the pattern shorter. */
  lemma {:induction false} ReplaceShrinks(s: string, pat: string, rep: string)
    requires |pat| > 0 && |rep| < |pat| && Contains(s, pat)
    ensures |ReplaceAll(s, pat, rep)| < |s|
    decreases |s|
  {
    if IsPrefix(pat, s) {
      ReplaceNotLonger(s[|pat|..], pat, rep);
    } else {
      ReplaceShrinks(s[1..], pat, rep);
    }
  }

  /** A replacement at most as long as its pattern never lengthens a text. */
  lemma {:induction false} ReplaceNotLonger(s: string, pat: string, rep: string)
    requires |pat| > 0 && |rep| <= |pat|
    ensures |ReplaceAll(s, pat, rep)| <= |s|
    decreases |s|
  {
    if IsPrefix(pat, s) {
      ReplaceNotLonger(s[|pat|..], pat, rep);
    } else if |s| > 0 {
      ReplaceNotLonger(s[1..], pat, rep);
    }
  }

  /** A character that is in neither the text nor the replacement is not in
      the result. */
  lemma {:induction false} ReplaceKeepsOut(s: string, pat: string, rep: string, c: char)
    requires |pat| > 0 && !HasChar(s, c) && !HasChar(rep, c)
    ensures !HasChar(ReplaceAll(s, pat, rep), c)
    decreases |s|
  {
    if IsPrefix(pat, s) {
      assert !HasChar(s[|pat|..], c) by {
        forall k | 0 <= k < |s| - |pat| ensures s[|pat|..][k] != c {
          assert s[|pat|..][k] == s[|pat| + k];
        }
      }
      ReplaceKeepsOut(s[|pat|..], pat, rep, c);
      HasCharConcat(rep, ReplaceAll(s[|pat|..], pat, rep), c);
    } else if |s| > 0 {
      assert !HasChar(s[1..], c) by {
        forall k | 0 <= k < |s| - 1 ensures s[1..][k] != c {
          assert s[1..][k] == s[k + 1];
        }
      }
      ReplaceKeepsOut(s[1..], pat, rep, c);
      HasCharConcat([s[0]], ReplaceAll(s[1..], pat, rep), c);
    }
  }

  /** A text contains its own tail. */
  lemma ContainsTail(a: string, b: string)
    ensures Contains(a + b, b)
  {
    assert (a + b)[|a|..|a| + |b|] == b;
    ContainsAt(a + b, b, |a|);
  }

  /** A text contains its own head. */
  lemma ContainsHead(a: string, b: string)
    ensures Contains(a + b, a)
  {
    assert (a + b)[..|a|] == a;
    ContainsAt(a + b, a, 0);
  }

  // ---------------------------------------------------------------------
  // Lemmas about lines

  /** Splitting the join of newline-free lines gives back the lines. */
  lemma {:induction false} SplitJoin(lines: seq<string>)
    requires |lines| > 0
    requires forall k :: 0 <= k < |lines| ==> !HasChar(lines[k], '\n')
    ensures SplitLines(JoinLines(lines)) == lines
    decreases |lines|
  {
    if |lines| == 1 {
      SplitSingle(lines[0]);
    } else {
      SplitJoin(lines[1..]);
      SplitAppend(lines[0], JoinLines(lines[1..]));
      assert [lines[0]] + lines[1..] == lines;
    }
  }

  /** A newline in a concatenation is a newline in one of its parts. */
  lemma HasCharConcat(a: string, b: string, c: char)
    ensures HasChar(a + b, c) <==> HasChar(a, c) || HasChar(b, c)
  {
    if HasChar(a + b, c) {
      var i :| 0 <= i < |a + b| && (a + b)[i] == c;
      if i >= |a| { assert b[i - |a|] == c; }
    }
    if HasChar(a, c) {
      var i :| 0 <= i < |a| && a[i] == c;
      assert (a + b)[i] == c;
    }
    if HasChar(b, c) {
      var i :| 0 <= i < |b| && b[i] == c;
      assert (a + b)[|a| + i] == c;
    }
  }

  /** The joined text contains every line. */
  lemma {:induction false} ContainsLine(lines: seq<string>, k: nat)
    requires |lines| > 0 && k < |lines|
    ensures Contains(JoinLines(lines), lines[k])
    decreases |lines|
  {
    if |lines| == 1 {
      ContainsAt(lines[0], lines[0], 0);
    } else if k == 0 {
      ContainsHead(lines[0], "\n" + JoinLines(lines[1..]));
      assert lines[0] + "\n" + JoinLines(lines[1..]) == lines[0] + ("\n" + JoinLines(lines[1..]));
    } else {
      ContainsLine(lines[1..], k - 1);
      ContainsTail(lines[0] + "\n", JoinLines(lines[1..]));
      ContainsTrans(JoinLines(lines), JoinLines(lines[1..]), lines[k]);
    }
  }

  /** Joining the pieces of a split gives back the text (`'\n'.join(c.split('\n')) == c`). */
  lemma {:induction false} JoinSplit(s: string)
    ensures JoinLines(SplitLines(s)) == s
    decreases |s|
  {
    if |s| > 0 {
      JoinSplit(s[1..]);
      var rest := SplitLines(s[1..]);
      if s[0] == '\n' {
        assert SplitLines(s) == [""] + rest;
        assert ([""] + rest)[1..] == rest;
      } else {
        var r := [[s[0]] + rest[0]] + rest[1..];
        assert SplitLines(s) == r;
        if |rest| == 1 {
          assert rest == [rest[0]];
        } else {
          assert r[1..] == rest[1..];
          assert JoinLines(rest) == rest[0] + "\n" + JoinLines(rest[1..]);
        }
      }
    }
  }

  /** A text without a newline is one piece. */
  lemma {:induction false} SplitSingle(s: string)
    requires !HasChar(s, '\n')
    ensures SplitLines(s) == [s]
    decreases |s|
  {
    if |s| > 0 {
      assert !HasChar(s[1..], '\n') by {
        forall k | 0 <= k < |s[1..]| ensures s[1..][k] != '\n' {
          assert s[1..][k] == s[k + 1];
        }
      }
      SplitSingle(s[1..]);
      assert s[0] != '\n';
      assert [s[0]] + s[1..] == s;
    }
  }

  /** Splitting at a newline splits the two sides separately. */
  lemma {:induction false} SplitAppend(a: string, b: string)
    requires !HasChar(a, '\n')
    ensures SplitLines(a + "\n" + b) == [a] + SplitLines(b)
    decreases |a|
  {
    if |a| == 0 {
      assert a + "\n" + b == "\n" + b;
      assert ("\n" + b)[1..] == b;
    } else {
      var t := a + "\n" + b;
      assert t[1..] == a[1..] + "\n" + b;
      assert !HasChar(a[1..], '\n') by {
        forall k | 0 <= k < |a[1..]| ensures a[1..][k] != '\n' {
          assert a[1..][k] == a[k + 1];
        }
      }
      SplitAppend(a[1..], b);
      assert t[0] == a[0] && a[0] != '\n';
      assert [a[0]] + a[1..] == a;
    }
  }

  /** A newline-free prefix of a text is a prefix of its first line. */
  lemma {:induction false} PrefixFirstLine(x: string, c: string)
    requires IsPrefix(x, c) && !HasChar(x, '\n')
    ensures IsPrefix(x, SplitLines(c)[0])
    decreases |c|
  {
    if |x| > 0 {
      assert x[0] == c[0] && c[0] != '\n';
      assert !HasChar(x[1..], '\n') by {
        forall k | 0 <= k < |x[1..]| ensures x[1..][k] != '\n' {
          assert x[1..][k] == x[k + 1];
        }
      }
      assert c[1..][..|x| - 1] == x[1..];
      PrefixFirstLine(x[1..], c[1..]);
      var rest := SplitLines(c[1..]);
      assert SplitLines(c)[0] == [c[0]] + rest[0];
      assert ([c[0]] + rest[0])[..|x|] == [c[0]] + rest[0][..|x| - 1];
      assert x == [x[0]] + x[1..];
    }
  }

  /** An occurrence of a newline-free text lies within one line. */
  lemma {:induction false} ContainsSomeLine(c: string, x: string) returns (k: nat)
    requires Contains(c, x) && !HasChar(x, '\n')
    ensures k < |SplitLines(c)| && Contains(SplitLines(c)[k], x)
    decreases |c|
  {
    if IsPrefix(x, c) {
      PrefixFirstLine(x, c);
      ContainsAt(SplitLines(c)[0], x, 0);
      k := 0;
    } else {
      var j := ContainsSomeLine(c[1..], x);
      var rest := SplitLines(c[1..]);
      if c[0] == '\n' {
        assert SplitLines(c) == [""] + rest;
        k := j + 1;
      } else if j == 0 {
        assert SplitLines(c)[0] == [c[0]] + rest[0];
        ContainsInConcat([c[0]], rest[0], x);
        k := 0;
      } else {
        assert SplitLines(c) == [[c[0]] + rest[0]] + rest[1..];
        k := j;
      }
    }
  }
}
