// Small pure pieces of both build scripts: the argument check, the
// Windows-to-MSYS2 path conversion, the `{pre}` substitution into flag
// templates, the build-kind dispatch to command lists, and `mrun`.

module Cli {
  import opened Text
  import opened Sync

  datatype Option<T> = None | Some(value: T)

  // ---------------------------------------------------------------------
  // Command line

  /** The only arguments either script accepts. */
  const Allowed: set<string> := {"--clean", "--force-resume", "--skip-updates", "--force-mpv"}

  datatype Flags = Flags(clean: bool, forceResume: bool, skipUpdates: bool, forceMpv: bool)

  /** The argument check: the run stops with status 1 naming the unknown
      arguments, or goes on with one flag per allowed argument. */
  datatype Parsed = Rejected(invalid: set<string>) | Accepted(flags: Flags)

  function ParseArgs(argv: seq<string>): (r: Parsed)
    ensures r.Rejected? <==> exists a | a in argv :: a !in Allowed
    ensures r.Rejected? ==> r.invalid != {} && forall a :: a in r.invalid <==> a in argv && a !in Allowed
    ensures r.Accepted? ==>
              && (r.flags.clean <==> "--clean" in argv)
              && (r.flags.forceResume <==> "--force-resume" in argv)
              && (r.flags.skipUpdates <==> "--skip-updates" in argv)
              && (r.flags.forceMpv <==> "--force-mpv" in argv)
  {
    var args := set a | a in argv;
    if args <= Allowed then
      Accepted(Flags("--clean" in args, "--force-resume" in args, "--skip-updates" in args, "--force-mpv" in args))
    else
      Rejected(args - Allowed)
  }

  /** Order and repetition of the arguments do not matter. */
  lemma ParseArgsOrderFree(a: seq<string>, b: seq<string>)
    requires forall x :: x in a <==> x in b
    ensures ParseArgs(a) == ParseArgs(b)
  {
    assert (set x | x in a) == (set x | x in b);
  }

  // ---------------------------------------------------------------------
  // Paths

  /** to_unix of build_v2_clang.py: backslashes become slashes, and a path
      whose second character is a colon loses its drive prefix `X:` in
      favour of `/x`. */
  function ToUnix(p: string): (r: string)
    ensures |r| == |p|
    ensures !HasChar(r, '\\')
    ensures |p| >= 2 && p[1] == ':' ==> r[0] == '/' && r[1] == Lower(Slashes(p)[0]) && r[2..] == Slashes(p[2..])
    ensures !(|p| >= 2 && p[1] == ':') ==> r == Slashes(p)
  {
    var q := Slashes(p);
    if |q| >= 2 && q[1] == ':' then
      var r := ['/', Lower(q[0])] + q[2..];
      assert q[2..] == Slashes(p[2..]);
      assert Lower(q[0]) != '\\' by {
        assert q[0] != '\\';
      }
      assert forall k | 2 <= k < |r| :: r[k] == q[k] && q[k] != '\\';
      r
    else q
  }

  /** Converting twice is converting once, except for a path that starts
      with two colons, whose first conversion leaves a colon second. */
  lemma ToUnixIdempotent(p: string)
    ensures ToUnix(ToUnix(p)) == ToUnix(p) <==> !(|p| >= 2 && p[0] == ':' && p[1] == ':')
  {
    var r := ToUnix(p);
    SlashesFixed(r);
    if |p| >= 2 && p[1] == ':' {
      assert r[1] == Lower(Slashes(p)[0]);
      if p[0] == ':' {
        assert ToUnix(r)[..2] == ['/', '/'];
        assert r[0] == '/' && r[1] == ':';
      }
    } else {
      assert |r| >= 2 ==> r[1] != ':';
    }
  }

  /** Slash conversion leaves a text without backslashes alone. */
  lemma SlashesFixed(s: string)
    requires !HasChar(s, '\\')
    ensures Slashes(s) == s
  {
  }

  /** The to_unix lambda of build.py: backslashes become slashes, then
      every `C:/` becomes `/c/`. */
  function ToUnixLegacy(p: string): (r: string)
    ensures |r| == |p|
    ensures !HasChar(r, '\\')
  {
    var q := Slashes(p);
    ReplaceNotShorter(q, "C:/", "/c/");
    ReplaceNotLonger(q, "C:/", "/c/");
    ReplaceKeepsOut(q, "C:/", "/c/", '\\');
    ReplaceAll(q, "C:/", "/c/")
  }

  /** `C:/` at the front is rewritten and the scan goes on behind it. */
  lemma ReplaceDriveAtFront(x: string)
    ensures ReplaceAll("C:/" + x, "C:/", "/c/") == "/c/" + ReplaceAll(x, "C:/", "/c/")
  {
    assert IsPrefix("C:/", "C:/" + x);
    assert ("C:/" + x)[3..] == x;
  }

  /** A character other than `C` at the front is kept and the scan goes on. */
  lemma ReplaceSkipsFront(c: char, x: string)
    requires c != 'C'
    ensures ReplaceAll([c] + x, "C:/", "/c/") == [c] + ReplaceAll(x, "C:/", "/c/")
  {
    assert !IsPrefix("C:/", [c] + x);
    assert ([c] + x)[1..] == x;
  }

  /** Slash conversion works character by character. */
  lemma SlashesConcat(a: string, b: string)
    ensures Slashes(a + b) == Slashes(a) + Slashes(b)
  {
    assert forall k | 0 <= k < |a + b| :: Slashes(a + b)[k] == (Slashes(a) + Slashes(b))[k];
  }

  /** On a path under `C:\` the Clang conversion gives `/c/` and the rest
      with slashes. */
  lemma ToUnixDriveC(rest: string)
    ensures ToUnix("C:\\" + rest) == "/c/" + Slashes(rest)
  {
    ClangRewritesDrive('C', rest);
    assert Lower('C') == 'c';
  }

  /** On a path under `C:\` that does not mention `C:/` again, both
      conversions agree. */
  lemma ToUnixAgree(rest: string)
    requires !Contains(Slashes(rest), "C:/")
    ensures ToUnixLegacy("C:\\" + rest) == ToUnix("C:\\" + rest)
  {
    SlashesConcat("C:\\", rest);
    assert Slashes("C:\\") == "C:/";
    ReplaceDriveAtFront(Slashes(rest));
    ReplaceAbsent(Slashes(rest), "C:/", "/c/");
    ToUnixDriveC(rest);
  }

  /** build.py keeps any other drive letter, and a lower-case `c`. */
  lemma LegacyKeepsOtherDrive(d: char, rest: string)
    requires d != 'C' && d != '\\' && !Contains(Slashes(rest), "C:/")
    ensures ToUnixLegacy([d, ':', '\\'] + rest) == [d, ':', '/'] + Slashes(rest)
  {
    var x := Slashes(rest);
    SlashesConcat([d, ':', '\\'], rest);
    assert Slashes([d, ':', '\\']) == [d, ':', '/'];
    ReplaceSkipsFront('/', x);
    assert [':', '/'] + x == [':'] + (['/'] + x);
    ReplaceSkipsFront(':', ['/'] + x);
    assert [d, ':', '/'] + x == [d] + ([':', '/'] + x);
    ReplaceSkipsFront(d, [':', '/'] + x);
    ReplaceAbsent(x, "C:/", "/c/");
  }

  /** build_v2_clang.py rewrites every drive letter. */
  lemma ClangRewritesDrive(d: char, rest: string)
    requires d != '\\'
    ensures ToUnix([d, ':', '\\'] + rest) == ['/', Lower(d), '/'] + Slashes(rest)
  {
    var p := [d, ':', '\\'] + rest;
    SlashesConcat([d, ':'], ['\\'] + rest);
    assert p == [d, ':'] + (['\\'] + rest);
    SlashesConcat(['\\'], rest);
    assert p[2..] == ['\\'] + rest;
  }

  // ---------------------------------------------------------------------
  // Flag templates

  /** The package's flag template with every `{pre}` replaced by the
      install prefix; a missing or empty template gives no flags. */
  function SubstPre(f: Option<string>, pre: string): (r: string)
    ensures f.None? || f == Some("") ==> r == ""
    ensures f.Some? && !Contains(f.value, "{pre}") ==> r == f.value
    ensures f.Some? && Contains(f.value, "{pre}") ==> Contains(r, pre)
    ensures f.Some? ==> r == ReplaceAll(f.value, "{pre}", pre)
  {
    if f.None? || f.value == "" then ""
    else
      if Contains(f.value, "{pre}") then
        ReplaceInserts(f.value, "{pre}", pre);
        ReplaceAll(f.value, "{pre}", pre)
      else
        ReplaceAbsent(f.value, "{pre}", pre);
        ReplaceAll(f.value, "{pre}", pre)
  }

  /** The suffixes of the placeholder after its opening brace. */
  predicate PlaceholderTail(w: string)
  {
    w == "pre}" || w == "re}" || w == "e}" || w == "}" || w == ""
  }

  /** A substitution result that starts with a tail of the placeholder
      comes from a text starting with the same tail, when the inserted text
      has no brace and is longer than three characters. */
  lemma {:induction false} PlaceholderTailBack(s: string, pre: string, w: string)
    requires |pre| > 3 && !HasChar(pre, '}')
    requires PlaceholderTail(w)
    ensures IsPrefix(w, ReplaceAll(s, "{pre}", pre)) ==> IsPrefix(w, s)
    decreases |s|
  {
    var r := ReplaceAll(s, "{pre}", pre);
    if IsPrefix(w, r) && |w| > 0 {
      assert r[|w| - 1] == w[|w| - 1] == '}';
      if !IsPrefix("{pre}", s) {
        var t := ReplaceAll(s[1..], "{pre}", pre);
        assert r == [s[0]] + t;
        assert w[1..] == "re}" || w[1..] == "e}" || w[1..] == "}" || w[1..] == "";
        PlaceholderTailBack(s[1..], pre, w[1..]);
        assert t[..|w| - 1] == r[1..|w|];
      }
    }
  }

  /** An occurrence in `a + t` whose first character is not in `a` lies in `t`. */
  lemma ContainsPastHead(a: string, t: string, x: string)
    requires |x| > 0 && Contains(a + t, x) && !HasChar(a, x[0])
    ensures Contains(t, x)
  {
    var i := ContainsWitness(a + t, x);
    assert (a + t)[i] == (a + t)[i..i + |x|][0] == x[0];
    assert (a + t)[i..i + |x|] == t[i - |a|..i - |a| + |x|];
    ContainsAt(t, x, i - |a|);
  }

  /** Replacing every `{pre}` by a text that has no brace and is longer than
      three characters leaves no `{pre}` behind. */
  lemma {:induction false} NoPlaceholderLeft(s: string, pre: string)
    requires |pre| > 3 && !HasChar(pre, '{') && !HasChar(pre, '}')
    ensures !Contains(ReplaceAll(s, "{pre}", pre), "{pre}")
    decreases |s|
  {
    var r := ReplaceAll(s, "{pre}", pre);
    if IsPrefix("{pre}", s) {
      var t := ReplaceAll(s[5..], "{pre}", pre);
      assert r == pre + t;
      NoPlaceholderLeft(s[5..], pre);
      if Contains(r, "{pre}") {
        ContainsPastHead(pre, t, "{pre}");
      }
    } else if |s| > 0 {
      var t := ReplaceAll(s[1..], "{pre}", pre);
      assert r == [s[0]] + t;
      NoPlaceholderLeft(s[1..], pre);
      if Contains(r, "{pre}") {
        if s[0] == '{' {
          StartsAfterBrace(s, t, pre);
        } else {
          ContainsPastHead([s[0]], t, "{pre}");
        }
      }
    }
  }

  /** A brace followed by a substitution result that starts with `pre}`
      would need a text starting with the whole placeholder. */
  lemma StartsAfterBrace(s: string, t: string, pre: string)
    requires |pre| > 3 && !HasChar(pre, '{') && !HasChar(pre, '}')
    requires |s| > 0 && s[0] == '{' && !IsPrefix("{pre}", s)
    requires t == ReplaceAll(s[1..], "{pre}", pre) && !Contains(t, "{pre}")
    ensures !Contains([s[0]] + t, "{pre}")
  {
    if Contains([s[0]] + t, "{pre}") {
      var i := ContainsWitness([s[0]] + t, "{pre}");
      if i == 0 {
        assert t[..4] == ([s[0]] + t)[1..5] == "pre}";
        PlaceholderTailBack(s[1..], pre, "pre}");
      } else {
        assert t[i - 1..i + 4] == ([s[0]] + t)[i..i + 5];
        ContainsAt(t, "{pre}", i - 1);
      }
    }
  }

  /** With an install prefix that has no brace and more than three
      characters, no `{pre}` placeholder survives the substitution. */
  lemma SubstPreComplete(f: Option<string>, pre: string)
    requires |pre| > 3 && !HasChar(pre, '{') && !HasChar(pre, '}')
    ensures !Contains(SubstPre(f, pre), "{pre}")
  {
    if f.Some? {
      NoPlaceholderLeft(f.value, pre);
    } else {
      assert !IsPrefix("{pre}", "");
    }
  }

  // ---------------------------------------------------------------------
  // Build commands

  /** The build kinds of the package tables. */
  datatype Kind = Meson | CMake | Autotools | Intl | Make | LuaJit

  /** Preparation scripts run before configuring. `LoneFlag` is the word
      `-i` run as a command of its own: build_v2_clang.py hands the list
      `['autoreconf', '-i']` to `mrun`, which runs each element separately. */
  datatype Script = Autogen | Autoreconf | LoneFlag | GitSubPull

  /** One shell command of a build, by role: its build system, the parallel
      job count where it has one, and the package's substituted flags where
      the command carries them. The literal rest of each command is not
      modelled. */
  datatype Cmd =
    | Prepare(script: Script)
    | Configure(system: Kind, flags: string)
    | Compile(system: Kind, jobs: nat, flags: string)
    | Install(system: Kind, flags: string)

  /** configure, build, install: the shape of meson, cmake and autotools builds. */
  function Triple(k: Kind, flags: string, jobs: nat): seq<Cmd>
  {
    [Configure(k, flags), Compile(k, jobs, ""), Install(k, "")]
  }

  /** What the unpacked build directory holds, as far as the dispatch asks. */
  datatype Tree = Tree(configure: bool, autogen: bool, configureAc: bool)

  /** The commands build_v2_clang.py runs for one package (722-797):
      meson and cmake run setup/build/install; autotools-like kinds first
      generate a missing `configure` (`autoreconf` and its `-i` as two
      commands, as `mrun` runs them); autotools configures (xz with one
      job), `make` and `intl` run make and make install with the flags, and
      luajit runs its own make pair. A package without a kind runs nothing. */
  function DispatchClang(n: string, kind: Option<Kind>, fenv: string, tree: Tree, nproc: nat): (r: seq<Cmd>)
    ensures kind.None? ==> r == []
    ensures kind.Some? ==> |r| > 0 && r[|r| - 1].Install?
    ensures forall i | 0 <= i < |r| :: r[i].Configure? ==> r[i].flags == fenv
    ensures forall i | 0 <= i < |r| :: r[i].Prepare? ==>
              i <= 1 && kind.Some? && kind.value in {Autotools, Intl} && !tree.configure
    ensures kind.Some? && kind.value in {Autotools, Intl} && !tree.configure && !tree.autogen && tree.configureAc ==>
              |r| >= 2 && r[0] == Prepare(Autoreconf) && r[1] == Prepare(LoneFlag)
    ensures n == "xz" && kind == Some(Autotools) ==>
              forall i | 0 <= i < |r| :: r[i].Compile? ==> r[i].jobs == 1
  {
    match kind
    case None => []
    case Some(k) =>
      if k == Meson || k == CMake then Triple(k, fenv, nproc)
      else
        var prep :=
          if (k == Autotools || k == Intl) && !tree.configure then
            if tree.autogen then [Prepare(Autogen)]
            else if tree.configureAc then [Prepare(Autoreconf), Prepare(LoneFlag)]
            else []
          else [];
        if k == Autotools then prep + Triple(Autotools, fenv, if n == "xz" then 1 else nproc)
        else if k == LuaJit then prep + [Compile(LuaJit, nproc, ""), Install(LuaJit, "")]
        else prep + [Compile(Make, nproc, fenv), Install(Make, fenv)]
  }

  /** The packages build.py dispatches by name before looking at the kind. */
  const NamedInLegacy: set<string> :=
    {"libepoxy", "shaderc", "expat", "gettext", "xz", "bzip2", "zimg", "zlib",
     "libpng", "libjpeg-turbo", "ffnvcodec", "fribidi"}

  /** The commands build.py runs for one package (499-554), first by name,
      then by kind. */
  function DispatchLegacy(n: string, kind: Option<Kind>, fenv: string, nproc: nat): (r: seq<Cmd>)
    ensures kind.None? && n !in NamedInLegacy ==> r == []
    ensures n in NamedInLegacy || (kind.Some? && kind.value in {Meson, CMake, Autotools, LuaJit})
            ==> |r| > 0 && r[|r| - 1].Install?
    ensures forall i | 0 <= i < |r| :: r[i].Configure? ==> r[i].flags == fenv
    ensures forall i | 0 <= i < |r| :: r[i].Prepare? ==> n in {"zimg", "libiconv", "libass"}
  {
    if n == "libepoxy" || n == "fribidi" then Triple(Meson, fenv, nproc)
    else if n in {"shaderc", "expat", "zlib", "libpng", "libjpeg-turbo"} then Triple(CMake, fenv, nproc)
    else if n == "gettext" then Triple(Autotools, fenv, 1)
    else if n == "xz" then Triple(Autotools, fenv, nproc)
    else if n == "bzip2" then [Compile(Make, nproc, ""), Install(Make, "")]
    else if n == "zimg" then [Prepare(Autogen)] + Triple(Autotools, fenv, nproc)
    else if n == "ffnvcodec" then [Install(Make, "")]
    else match kind
      case Some(Autotools) =>
        var prep :=
          if n == "libiconv" then [Prepare(GitSubPull), Prepare(Autogen)]
          else if n == "libass" then [Prepare(Autogen)]
          else [];
        prep + Triple(Autotools, fenv, nproc)
      case Some(Meson) => Triple(Meson, fenv, nproc)
      case Some(CMake) => Triple(CMake, fenv, nproc)
      case Some(LuaJit) => [Compile(LuaJit, nproc, ""), Install(LuaJit, "")]
      case _ => []
  }

  /** meson and cmake packages build with the same commands in both scripts. */
  lemma DispatchAgree(n: string, k: Kind, fenv: string, tree: Tree, nproc: nat)
    requires k == Meson || k == CMake
    requires || n !in NamedInLegacy
             || (n in {"libepoxy", "fribidi"} && k == Meson)
             || (n in {"shaderc", "expat", "zlib", "libpng", "libjpeg-turbo"} && k == CMake)
    ensures DispatchClang(n, Some(k), fenv, tree, nproc) == DispatchLegacy(n, Some(k), fenv, nproc)
  {
  }

  /** xz compiles with one job in build_v2_clang.py and with all of them in
      build.py. */
  lemma XzJobs(fenv: string, nproc: nat)
    ensures DispatchClang("xz", Some(Autotools), fenv, Tree(true, false, false), nproc)
            == Triple(Autotools, fenv, 1)
    ensures DispatchLegacy("xz", Some(Autotools), fenv, nproc) == Triple(Autotools, fenv, nproc)
  {
  }

  // ---------------------------------------------------------------------
  // mrun

  /** The failures among the exit statuses `ok`. */
  function Failures(ok: seq<bool>): (f: seq<bool>)
    ensures |f| == |ok| && forall i | 0 <= i < |ok| :: f[i] == !ok[i]
  {
    seq(|ok|, i requires 0 <= i < |ok| => !ok[i])
  }

  /** mrun: run the commands in order; the first failing one raises, so
      nothing after it runs. `answers[i]` is whether command `i` would
      succeed. */
  method MRun(cmds: seq<Cmd>, answers: seq<bool>) returns (ok: bool, ran: seq<Cmd>)
    requires |answers| == |cmds|
    ensures ok <==> forall i | 0 <= i < |cmds| :: answers[i]
    ensures ran == cmds[..Tries(Failures(answers))]
    ensures ok ==> ran == cmds
  {
    ghost var f := Failures(answers);
    ran := [];
    var i := 0;
    while i < |cmds|
      invariant 0 <= i <= |cmds|
      invariant ran == cmds[..i]
      invariant forall j | 0 <= j < i :: answers[j]
    {
      ran := ran + [cmds[i]];
      if !answers[i] {
        assert f[i] && forall j | 0 <= j < i :: !f[j];
        TriesFirst(f, i);
        return false, ran;
      }
      i := i + 1;
    }
    TriesNone(f);
    assert ran == cmds[..|cmds|];
    ok := true;
  }

  /** The exit status of each of the first `n` commands. */
  function Outcomes(answers: seq<bool>, n: nat): (r: seq<bool>)
    ensures |r| == n
    ensures forall i | 0 <= i < n :: r[i] == (i >= |answers| || answers[i])
  {
    seq(n, i requires 0 <= i < n => i >= |answers| || answers[i])
  }

  /** Every one of the first `n` commands succeeds. */
  predicate Succeeds(answers: seq<bool>, n: nat)
  {
    forall i | 0 <= i < n && i < |answers| :: answers[i]
  }

  /** Two `mrun` calls in a row run what one `mrun` of the concatenation
      runs: the second starts only when the first succeeded. */
  lemma {:induction false} TriesConcat(a: seq<bool>, b: seq<bool>)
    ensures Tries(a + b) == if exists i | 0 <= i < |a| :: a[i] then Tries(a) else |a| + Tries(b)
    decreases |a|
  {
    if |a| > 0 {
      assert (a + b)[1..] == a[1..] + b;
      TriesConcat(a[1..], b);
      if !a[0] {
        assert (exists i | 0 <= i < |a| :: a[i]) <==> (exists i | 0 <= i < |a[1..]| :: a[1..][i]) by {
          if exists i | 0 <= i < |a| :: a[i] {
            var i :| 0 <= i < |a| && a[i];
            assert a[1..][i - 1] == a[i];
          }
        }
      }
    } else {
      assert a + b == b;
    }
  }

  /** Running commands `x` and then `y` in two `mrun` calls. */
  lemma MRunSequence(okX: seq<bool>, okY: seq<bool>)
    ensures Tries(Failures(okX + okY))
            == if forall i | 0 <= i < |okX| :: okX[i] then |okX| + Tries(Failures(okY)) else Tries(Failures(okX))
  {
    assert Failures(okX + okY) == Failures(okX) + Failures(okY);
    TriesConcat(Failures(okX), Failures(okY));
  }
}
