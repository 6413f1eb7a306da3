/** The part of Python's `glob.glob` the build scripts rely on, for one
    directory level. The scripts run on Windows, where `fnmatch` first folds
    both name and pattern to lower case (`os.path.normcase`) and then matches
    case-sensitively, and `glob` never lets a pattern that does not start with
    a dot return a name that does. Every pattern the scripts use is made of
    literal characters and `*`; `?` and `[...]` never occur and are not
    modelled. */
module Glob {
  import opened Text

  /** `os.path.normcase` on a file name: ASCII lower case. */
  function Fold(s: string): (r: string)
    ensures |r| == |s|
  {
    seq(|s|, k requires 0 <= k < |s| => Lower(s[k]))
  }

  /** No `*` in a pattern piece. */
  predicate StarFree(p: string)
  {
    forall k :: 0 <= k < |p| ==> p[k] != '*'
  }

  /** `fnmatchcase`: `*` matches any run of characters, everything else itself. */
  predicate Match(pat: string, name: string)
    decreases |pat| + |name|
  {
    if |pat| == 0 then |name| == 0
    else if pat[0] == '*' then Match(pat[1..], name) || (|name| > 0 && Match(pat, name[1..]))
    else |name| > 0 && pat[0] == name[0] && Match(pat[1..], name[1..])
  }

  /** `glob` returns a dot-file only for a pattern that starts with a dot. */
  predicate DotOk(pat: string, name: string)
  {
    |name| > 0 && name[0] == '.' ==> |pat| > 0 && pat[0] == '.'
  }

  /** Whether `glob(dir/pat)` returns the entry `name` of `dir`. */
  predicate GlobMatch(pat: string, name: string)
  {
    Match(Fold(pat), Fold(name)) && DotOk(pat, name)
  }

  /** A star-free head must match the front of the name exactly. */
  lemma {:induction false} MatchLiteralHead(pre: string, rest: string, name: string)
    requires StarFree(pre)
    ensures Match(pre + rest, name) <==>
      IsPrefix(pre, name) && Match(rest, name[|pre|..])
    decreases |pre|
  {
    if |pre| > 0 {
      var p := pre + rest;
      assert p[0] == pre[0] && p[1..] == pre[1..] + rest;
      assert StarFree(pre[1..]) by {
        forall k | 0 <= k < |pre[1..]| ensures pre[1..][k] != '*' { assert pre[1..][k] == pre[k + 1]; }
      }
      if |name| > 0 {
        MatchLiteralHead(pre[1..], rest, name[1..]);
        if |name| >= |pre| {
          assert name[1..][|pre| - 1..] == name[|pre|..];
          assert name[..|pre|] == [name[0]] + name[1..][..|pre| - 1];
          assert pre == [pre[0]] + pre[1..];
        }
      }
    } else {
      assert pre + rest == rest;
      assert name[0..] == name;
    }
  }

  /** A star-free pattern matches only itself. */
  lemma MatchLiteral(pat: string, name: string)
    requires StarFree(pat)
    ensures Match(pat, name) <==> name == pat
  {
    MatchLiteralHead(pat, "", name);
    assert pat + "" == pat;
    if IsPrefix(pat, name) && |name| == |pat| { assert name[..|pat|] == name; }
  }

  /** A leading `*` followed by a star-free tail matches the names ending with that tail. */
  lemma {:induction false} MatchStarSuffix(suf: string, name: string)
    requires StarFree(suf)
    ensures Match("*" + suf, name) <==> IsSuffix(suf, name)
    decreases |name|
  {
    var p := "*" + suf;
    assert p[0] == '*' && p[1..] == suf;
    MatchLiteral(suf, name);
    if |name| > 0 {
      MatchStarSuffix(suf, name[1..]);
      if |name| - 1 >= |suf| {
        assert name[1..][|name[1..]| - |suf|..] == name[|name| - |suf|..];
      }
      if |name| == |suf| {
        assert name[|name| - |suf|..] == name;
      }
    } else {
      if |suf| == 0 { assert name[|name| - |suf|..] == name; }
    }
  }

  /** The shape `pre*suf` (the archive patterns `lib{ln}*.a` and `{ln}*.a`):
      a name matches iff it is long enough, starts with `pre` and ends with `suf`. */
  lemma PrefixStarSuffix(pre: string, suf: string, name: string)
    requires StarFree(pre) && StarFree(suf)
    ensures Match(pre + "*" + suf, name) <==>
      |name| >= |pre| + |suf| && IsPrefix(pre, name) && IsSuffix(suf, name)
  {
    var q := "*" + suf;
    assert pre + "*" + suf == pre + q;
    MatchLiteralHead(pre, q, name);
    if |name| >= |pre| {
      var t := name[|pre|..];
      MatchStarSuffix(suf, t);
      if |t| >= |suf| {
        assert t[|t| - |suf|..] == name[|name| - |suf|..];
      }
    }
  }

  /** A leading `*` lets the rest of the pattern match any tail of the name. */
  lemma {:induction false} MatchStarAnywhere(rest: string, name: string, i: nat)
    requires i <= |name| && Match(rest, name[i..])
    ensures Match("*" + rest, name)
    decreases i
  {
    var p := "*" + rest;
    assert p[0] == '*' && p[1..] == rest;
    if i == 0 {
      assert name[0..] == name;
    } else {
      assert name[1..][i - 1..] == name[i..];
      MatchStarAnywhere(rest, name[1..], i - 1);
    }
  }

  /** The converse: a match of `*rest` leaves some tail matched by `rest`. */
  lemma {:induction false} MatchStarWitness(rest: string, name: string) returns (i: nat)
    requires Match("*" + rest, name)
    ensures i <= |name| && Match(rest, name[i..])
    decreases |name|
  {
    var p := "*" + rest;
    assert p[0] == '*' && p[1..] == rest;
    if Match(rest, name) {
      i := 0;
      assert name[0..] == name;
    } else {
      var j := MatchStarWitness(rest, name[1..]);
      assert name[1..][j..] == name[j + 1..];
      i := j + 1;
    }
  }

  /** `x` occurs in `name` at position `i`. */
  predicate OccursAt(x: string, name: string, i: int)
  {
    0 <= i && i + |x| <= |name| && name[i..i + |x|] == x
  }

  /** The name ends with `suf` and mentions `x` somewhere before that ending. */
  predicate Mentions(x: string, suf: string, name: string)
  {
    IsSuffix(suf, name) &&
    exists i :: 0 <= i <= |name| - |suf| - |x| && OccursAt(x, name, i)
  }

  /** A match of `*x*suf` mentions `x` before the `suf` ending. */
  lemma InfixSound(x: string, suf: string, name: string)
    requires StarFree(x) && StarFree(suf) && Match("*" + x + "*" + suf, name)
    ensures Mentions(x, suf, name)
  {
    var rest := x + "*" + suf;
    assert "*" + x + "*" + suf == "*" + rest;
    var i := MatchStarWitness(rest, name);
    var u := name[i..];
    assert x + "*" + suf == x + ("*" + suf);
    MatchLiteralHead(x, "*" + suf, u);
    var t := name[i + |x|..];
    assert u[|x|..] == t;
    MatchStarSuffix(suf, t);
    assert t[|t| - |suf|..] == name[|name| - |suf|..];
    assert u[..|x|] == name[i..i + |x|];
    assert OccursAt(x, name, i) && i <= |name| - |suf| - |x|;
  }

  /** A name mentioning `x` before its `suf` ending matches `*x*suf`. */
  lemma InfixComplete(x: string, suf: string, name: string)
    requires StarFree(x) && StarFree(suf) && Mentions(x, suf, name)
    ensures Match("*" + x + "*" + suf, name)
  {
    var i :| 0 <= i <= |name| - |suf| - |x| && OccursAt(x, name, i);
    InfixAt(x, suf, name, i);
  }

  /** `InfixComplete` for a given position of `x`. */
  lemma InfixAt(x: string, suf: string, name: string, i: nat)
    requires StarFree(x) && StarFree(suf) && IsSuffix(suf, name)
    requires i <= |name| - |suf| - |x| && OccursAt(x, name, i)
    ensures Match("*" + x + "*" + suf, name)
  {
    var t := name[i + |x|..];
    assert t[|t| - |suf|..] == name[|name| - |suf|..];
    MatchStarSuffix(suf, t);
    TailMatch(x, suf, name[i..]);
    assert name[i..][|x|..] == t;
    assert name[i..][..|x|] == name[i..i + |x|];
    var rest := x + "*" + suf;
    assert "*" + x + "*" + suf == "*" + rest;
    MatchStarAnywhere(rest, name, i);
  }

  /** A text that starts with `x` and whose rest matches `*suf` matches `x*suf`. */
  lemma TailMatch(x: string, suf: string, u: string)
    requires StarFree(x) && |x| <= |u| && u[..|x|] == x && Match("*" + suf, u[|x|..])
    ensures Match(x + "*" + suf, u)
  {
    MatchLiteralHead(x, "*" + suf, u);
    assert x + "*" + suf == x + ("*" + suf);
  }

  /** The shape `*x*suf` (the metadata pattern `*{ln}*.pc` of remove_pkg)
      matches exactly the names that mention `x` before their `suf` ending. */
  lemma InfixMatch(x: string, suf: string, name: string)
    requires StarFree(x) && StarFree(suf)
    ensures Match("*" + x + "*" + suf, name) <==> Mentions(x, suf, name)
  {
    if Match("*" + x + "*" + suf, name) { InfixSound(x, suf, name); }
    if Mentions(x, suf, name) { InfixComplete(x, suf, name); }
  }

  /** Folding distributes over concatenation. */
  lemma FoldConcat(a: string, b: string)
    ensures Fold(a + b) == Fold(a) + Fold(b)
  {
    forall k | 0 <= k < |a + b|
      ensures Fold(a + b)[k] == (Fold(a) + Fold(b))[k]
    {
      if k >= |a| { assert (a + b)[k] == b[k - |a|]; }
    }
  }

  /** A name without upper-case letters is its own folding. */
  lemma FoldNoUpper(s: string)
    requires forall k :: 0 <= k < |s| ==> !('A' <= s[k] <= 'Z')
    ensures Fold(s) == s
  {
    forall k | 0 <= k < |s| ensures Fold(s)[k] == s[k] { }
  }

  /** Folding keeps a pattern piece free of `*`. */
  lemma FoldStarFree(s: string)
    requires StarFree(s)
    ensures StarFree(Fold(s))
  {
    forall k | 0 <= k < |s| ensures Fold(s)[k] != '*' { }
  }

  // ---------------------------------------------------------------------
  // The pattern shapes the build scripts use

  /** The three shapes of glob pattern the build scripts use. */
  datatype Pattern =
    | Literal(s: string)             // a fixed name, e.g. `libz.a`
    | Wrap(pre: string, suf: string)  // `pre*suf`, e.g. `libz*.a` or `*.dll`
    | Infix(mid: string, suf: string) // `*mid*suf`, e.g. `*z*.pc`

  /** The pattern as the scripts write it. */
  function PatText(p: Pattern): string
  {
    match p
    case Literal(s) => s
    case Wrap(pre, suf) => pre + "*" + suf
    case Infix(mid, suf) => "*" + mid + "*" + suf
  }

  /** Its literal pieces hold no `*`. */
  predicate WellFormed(p: Pattern)
  {
    match p
    case Literal(s) => StarFree(s)
    case Wrap(pre, suf) => StarFree(pre) && StarFree(suf)
    case Infix(mid, suf) => StarFree(mid) && StarFree(suf)
  }

  /** What a pattern of each shape returns, stated without `fnmatch`: the
      folded name equals the literal, or starts and ends with the pieces, or
      ends with the suffix and mentions the middle piece before it. */
  predicate Matches(p: Pattern, name: string)
  {
    var f := Fold(name);
    DotOk(PatText(p), name) &&
    match p
    case Literal(s) => f == Fold(s)
    case Wrap(pre, suf) => |f| >= |pre| + |suf| && IsPrefix(Fold(pre), f) && IsSuffix(Fold(suf), f)
    case Infix(mid, suf) => Mentions(Fold(mid), Fold(suf), f)
  }

  /** The shape-wise description agrees with `glob` on every well-formed
      pattern and every name. */
  lemma MatchesAgree(p: Pattern, name: string)
    requires WellFormed(p)
    ensures Matches(p, name) <==> GlobMatch(PatText(p), name)
  {
    match p
    case Literal(s) => LiteralAgrees(s, name);
    case Wrap(pre, suf) => WrapAgrees(pre, suf, name);
    case Infix(mid, suf) => InfixAgrees(mid, suf, name);
  }

  /** `MatchesAgree` for a literal. */
  lemma LiteralAgrees(s: string, name: string)
    requires StarFree(s)
    ensures Match(Fold(s), Fold(name)) <==> Fold(name) == Fold(s)
  {
    FoldStarFree(s);
    MatchLiteral(Fold(s), Fold(name));
  }

  /** `MatchesAgree` for `pre*suf`. */
  lemma WrapAgrees(pre: string, suf: string, name: string)
    requires StarFree(pre) && StarFree(suf)
    ensures var f := Fold(name);
      Match(Fold(pre + "*" + suf), f) <==>
        |f| >= |pre| + |suf| && IsPrefix(Fold(pre), f) && IsSuffix(Fold(suf), f)
  {
    FoldConcat(pre + "*", suf);
    FoldConcat(pre, "*");
    assert Fold("*") == "*";
    FoldStarFree(pre);
    FoldStarFree(suf);
    PrefixStarSuffix(Fold(pre), Fold(suf), Fold(name));
  }

  /** `MatchesAgree` for `*mid*suf`. */
  lemma InfixAgrees(mid: string, suf: string, name: string)
    requires StarFree(mid) && StarFree(suf)
    ensures Match(Fold("*" + mid + "*" + suf), Fold(name)) <==> Mentions(Fold(mid), Fold(suf), Fold(name))
  {
    FoldConcat("*" + mid + "*", suf);
    FoldConcat("*" + mid, "*");
    FoldConcat("*", mid);
    assert Fold("*") == "*";
    FoldStarFree(mid);
    FoldStarFree(suf);
    InfixMatch(Fold(mid), Fold(suf), Fold(name));
  }
}
