/** Repairs of pkg-config metadata files (`.pc`): `patch_pc` of both build
    scripts, as text functions between the read and the write, and
    `create_pc`, the fixed template. The metadata files themselves are the
    entries of a map from install-tree path to file text. */
module PkgConfig {
  import opened Text
  import opened Glob
  import opened Purge

  /** The text of the metadata files in the install tree, by path. */
  type Files = map<Path, string>

  // -----------------------------------------------------------------------
  // patch_pc of build.py

  /** The insertion step: when `libs` is not yet in the text it goes right
      after every `Libs.private:`, failing that after every `Libs:`,
      failing that on a new `Libs:` line at the end. */
  function InsertLibs(c: string, libs: string): string
  {
    if Contains(c, libs) then c
    else if Contains(c, "Libs.private:") then ReplaceAll(c, "Libs.private:", "Libs.private: " + libs)
    else if Contains(c, "Libs:") then ReplaceAll(c, "Libs:", "Libs: " + libs)
    else c + "\nLibs: " + libs
  }

  /** `if '-ldl' in c: c = c.replace('-ldl', '')`. */
  function StripLdl(c: string): string
  {
    if Contains(c, "-ldl") then ReplaceAll(c, "-ldl", "") else c
  }

  /** The new text patch_pc of build.py writes back. */
  function PatchLegacy(c: string, libs: string): string
  {
    StripLdl(InsertLibs(c, libs))
  }

  /** patch_pc(path, libs) of build.py on the metadata files: a missing
      file is left alone, an existing one is rewritten. */
  function PatchPcLegacy(files: Files, path: Path, libs: string): (r: Files)
    ensures path !in files ==> r == files
    ensures r.Keys == files.Keys
    ensures forall q :: q in files && q != path ==> r[q] == files[q]
    ensures path in files ==> r[path] == PatchLegacy(files[path], libs)
  {
    if path in files then files[path := PatchLegacy(files[path], libs)] else files
  }

  /** After the insertion step the text holds `libs`. */
  lemma InsertLibsHolds(c: string, libs: string)
    ensures Contains(InsertLibs(c, libs), libs)
  {
    if Contains(c, libs) {
    } else if Contains(c, "Libs.private:") {
      ReplaceInserts(c, "Libs.private:", "Libs.private: " + libs);
      ContainsTail("Libs.private: ", libs);
      ContainsTrans(InsertLibs(c, libs), "Libs.private: " + libs, libs);
    } else if Contains(c, "Libs:") {
      ReplaceInserts(c, "Libs:", "Libs: " + libs);
      ContainsTail("Libs: ", libs);
      ContainsTrans(InsertLibs(c, libs), "Libs: " + libs, libs);
    } else {
      ContainsTail(c + "\nLibs: ", libs);
    }
  }

  /** The insertion step leaves the text alone exactly when `libs` is
      already in it, and otherwise makes it longer. */
  lemma InsertLibsChanges(c: string, libs: string)
    ensures InsertLibs(c, libs) == c <==> Contains(c, libs)
    ensures !Contains(c, libs) ==> |InsertLibs(c, libs)| > |c|
  {
    if !Contains(c, libs) {
      assert |libs| == 0 ==> IsPrefix(libs, c);
      if Contains(c, "Libs.private:") {
        ReplaceGrows(c, "Libs.private:", "Libs.private: " + libs);
      } else if Contains(c, "Libs:") {
        ReplaceGrows(c, "Libs:", "Libs: " + libs);
      }
    }
  }

  /** Stripping `-ldl` changes the text exactly when it holds `-ldl`, and
      never lengthens it. */
  lemma StripLdlChanges(c: string)
    ensures StripLdl(c) == c <==> !Contains(c, "-ldl")
    ensures |StripLdl(c)| <= |c|
  {
    if Contains(c, "-ldl") {
      ReplaceShrinks(c, "-ldl", "");
    }
  }

  /** Once `libs` is in the text, patch_pc of build.py inserts nothing: it
      only strips `-ldl`, and the text does not grow. */
  lemma PatchLegacyInsertsOnce(c: string, libs: string)
    requires Contains(c, libs)
    ensures PatchLegacy(c, libs) == StripLdl(c)
    ensures |PatchLegacy(c, libs)| <= |c|
  {
    InsertLibsChanges(c, libs);
    StripLdlChanges(c);
  }

  /** A patched text that still holds `libs` and no `-ldl` is a fixed point:
      patching it again changes nothing. */
  lemma PatchLegacyFixedPoint(c: string, libs: string)
    requires Contains(c, libs) && !Contains(c, "-ldl")
    ensures PatchLegacy(c, libs) == c
  {
    InsertLibsChanges(c, libs);
    StripLdlChanges(c);
  }

  /** patch_pc of build.py on a text without `-ldl` whose `libs` have none
      either, when the insertion step creates none: the result holds `libs`. */
  lemma PatchLegacyHoldsLibs(c: string, libs: string)
    requires !Contains(InsertLibs(c, libs), "-ldl")
    ensures Contains(PatchLegacy(c, libs), libs)
  {
    InsertLibsHolds(c, libs);
  }

  // -----------------------------------------------------------------------
  // patch_pc of build_v2_clang.py

  /** The library appended to every library line. */
  const Shim := "-lvsnprintf_shim"

  /** The system libraries SDL2 needs for static linking. */
  const SdlExtra := SdlHead + "-lsetupapi" + SdlTail

  /** The libraries before `-lsetupapi` in `SdlExtra`. */
  const SdlHead := "-lmingw32 -lSDL2 -mwindows "

  /** The libraries after `-lsetupapi` in `SdlExtra`. */
  const SdlTail := " -lwinmm -limm32 -lole32 -loleaut32 -lversion -luuid -ladvapi32 -lshell32 -luser32 -lgdi32"

  /** The MSYS2 form of the `ucrt64` directory path: back-slashes become
      slashes, then a `C:/` or `c:/` drive becomes `/c/`. */
  function MsysUnix(ucrt64: string): string
  {
    ReplaceAll(ReplaceAll(Slashes(ucrt64), "C:/", "/c/"), "c:/", "/c/")
  }

  /** The prefix fix: `prefix=/ucrt64` is pointed at the MSYS2 tree. */
  function FixPrefix(c: string, ucrt64: string): string
  {
    if Contains(c, "prefix=/ucrt64") then ReplaceAll(c, "prefix=/ucrt64", "prefix=" + MsysUnix(ucrt64)) else c
  }

  /** The SDL2 repair: `-lSDL2main` is dropped, then the system libraries
      go after `Libs.private:` unless `-lsetupapi` is there already, or,
      without a `Libs.private:`, after every `Libs:`. */
  function SdlFix(c: string): string
  {
    var d := ReplaceAll(c, "-lSDL2main", "");
    if Contains(d, "Libs.private:") then
      (if !Contains(d, "-lsetupapi") then ReplaceAll(d, "Libs.private:", "Libs.private: " + SdlExtra) else d)
    else if Contains(d, "Libs:") then ReplaceAll(d, "Libs:", "Libs: " + SdlExtra)
    else d
  }

  /** A line that declares libraries. */
  predicate IsLibsLine(line: string)
  {
    IsPrefix("Libs.private:", line) || IsPrefix("Libs:", line)
  }

  /** One line of the append loops: a library line gets `add` after its
      trailing white space is stripped; with `guarded`, a line already
      holding `guard` is skipped. */
  function AppendLine(line: string, add: string, guard: string, guarded: bool): string
  {
    if IsLibsLine(line) && !(guarded && Contains(line, guard)) then RStrip(line) + add else line
  }

  /** The lines after an append loop. */
  function AppendLines(lines: seq<string>, add: string, guard: string, guarded: bool): (r: seq<string>)
    ensures |r| == |lines|
  {
    seq(|lines|, k requires 0 <= k < |lines| => AppendLine(lines[k], add, guard, guarded))
  }

  /** The loop `for i, line in enumerate(lines): ... lines[i] = ...`, which
      rewrites the list of lines in place. */
  method AppendToLibsLines(lines: seq<string>, add: string, guard: string, guarded: bool) returns (r: seq<string>)
    ensures r == AppendLines(lines, add, guard, guarded)
  {
    r := lines;
    var i := 0;
    while i < |r|
      invariant |r| == |lines| && 0 <= i <= |r|
      invariant forall k :: 0 <= k < i ==> r[k] == AppendLine(lines[k], add, guard, guarded)
      invariant forall k :: i <= k < |r| ==> r[k] == lines[k]
    {
      var line := r[i];
      if IsLibsLine(line) && !(guarded && Contains(line, guard)) {
        r := r[i := RStrip(line) + add];
      }
      i := i + 1;
    }
  }

  /** The append loop ends every library line it touches with `add`, and
      leaves every other line as it was. */
  lemma AppendLinesEffect(lines: seq<string>, add: string, guard: string, guarded: bool, k: nat)
    requires k < |lines|
    ensures var r := AppendLines(lines, add, guard, guarded);
      (IsLibsLine(lines[k]) && !(guarded && Contains(lines[k], guard)) ==> IsSuffix(add, r[k]) && Contains(r[k], add)) &&
      (!IsLibsLine(lines[k]) ==> r[k] == lines[k])
  {
    var line := lines[k];
    if IsLibsLine(line) && !(guarded && Contains(line, guard)) {
      ContainsTail(RStrip(line), add);
      assert (RStrip(line) + add)[|RStrip(line)|..] == add;
    }
  }

  /** The shim step: `-lvsnprintf_shim` goes at the end of every library
      line unless the text already holds it. */
  function ShimStage(c: string): string
  {
    if Contains(c, Shim) then c else JoinLines(AppendLines(SplitLines(c), " " + Shim, "", false))
  }

  /** The extra-libraries step: unless `libs` is empty or already in the
      text, it goes at the end of every library line that lacks it. */
  function LibsStage(c: string, libs: string): string
  {
    if |libs| > 0 && !Contains(c, libs) then JoinLines(AppendLines(SplitLines(c), " " + libs, libs, true)) else c
  }

  /** The new text patch_pc of build_v2_clang.py writes back for the file
      named `name`. */
  function PatchClang(name: string, c: string, libs: string, ucrt64: string): string
  {
    var c1 := FixPrefix(c, ucrt64);
    var c2 := if Contains(Fold(name), "sdl2.pc") then SdlFix(c1) else c1;
    StripLdl(LibsStage(ShimStage(c2), libs))
  }

  /** The shim step as the source runs it: split, rewrite the lines, join. */
  method ShimStep(c: string) returns (d: string)
    ensures d == ShimStage(c)
  {
    d := c;
    if !Contains(c, Shim) {
      var lines := SplitLines(c);
      lines := AppendToLibsLines(lines, " " + Shim, "", false);
      d := JoinLines(lines);
    }
  }

  /** The extra-libraries step as the source runs it. */
  method LibsStep(c: string, libs: string) returns (d: string)
    ensures d == LibsStage(c, libs)
  {
    d := c;
    if |libs| > 0 && !Contains(c, libs) {
      var lines := SplitLines(c);
      lines := AppendToLibsLines(lines, " " + libs, libs, true);
      d := JoinLines(lines);
    }
  }

  /** patch_pc(path, libs) of build_v2_clang.py on the metadata files,
      following the source statement by statement: a missing file is left
      alone, an existing one is rewritten. */
  method PatchPcClang(files: Files, path: Path, libs: string, ucrt64: string) returns (r: Files)
    requires |path| > 0
    ensures path !in files ==> r == files
    ensures path in files ==> r == files[path := PatchClang(path[|path| - 1], files[path], libs, ucrt64)]
  {
    if path !in files {
      return files;
    }
    var c := files[path];
    if Contains(c, "prefix=/ucrt64") {
      c := ReplaceAll(c, "prefix=/ucrt64", "prefix=" + MsysUnix(ucrt64));
    }
    assert c == FixPrefix(files[path], ucrt64);
    if Contains(Fold(path[|path| - 1]), "sdl2.pc") {
      c := SdlFix(c);
    }
    c := ShimStep(c);
    c := LibsStep(c, libs);
    if Contains(c, "-ldl") {
      c := ReplaceAll(c, "-ldl", "");
    }
    r := files[path := c];
  }

  /** Some line of the text declares libraries. */
  predicate HasLibsLine(c: string)
  {
    exists k :: 0 <= k < |SplitLines(c)| && IsLibsLine(SplitLines(c)[k])
  }

  /** An append loop leaves `add` in the text when it meets a line to
      touch, and gives back the text when it meets none. */
  lemma AppendStage(c: string, add: string, guard: string, guarded: bool)
    ensures var lines := SplitLines(c);
      var r := JoinLines(AppendLines(lines, add, guard, guarded));
      ((exists k :: 0 <= k < |lines| && IsLibsLine(lines[k]) && !(guarded && Contains(lines[k], guard))) ==> Contains(r, add)) &&
      ((forall k :: 0 <= k < |lines| ==> !IsLibsLine(lines[k]) || (guarded && Contains(lines[k], guard))) ==> r == c)
  {
    var lines := SplitLines(c);
    var r := AppendLines(lines, add, guard, guarded);
    if k :| 0 <= k < |lines| && IsLibsLine(lines[k]) && !(guarded && Contains(lines[k], guard)) {
      AppendLinesEffect(lines, add, guard, guarded, k);
      ContainsLine(r, k);
      ContainsTrans(JoinLines(r), r[k], add);
    } else {
      assert r == lines;
      JoinSplit(c);
    }
  }

  /** No line of a text holds what the text does not. */
  lemma NoLineHolds(c: string, x: string, k: nat)
    requires !Contains(c, x) && k < |SplitLines(c)|
    ensures !Contains(SplitLines(c)[k], x)
  {
    if Contains(SplitLines(c)[k], x) {
      JoinSplit(c);
      ContainsLine(SplitLines(c), k);
      ContainsTrans(c, SplitLines(c)[k], x);
    }
  }

  /** The shim step changes the text exactly when the shim is absent and
      some line declares libraries; the shim is then in the text. */
  lemma ShimStageEffect(c: string)
    ensures ShimStage(c) != c <==> !Contains(c, Shim) && HasLibsLine(c)
    ensures ShimStage(c) != c ==> Contains(ShimStage(c), Shim)
  {
    if !Contains(c, Shim) {
      AppendStage(c, " " + Shim, "", false);
      if HasLibsLine(c) {
        ContainsTail(" ", Shim);
        ContainsTrans(ShimStage(c), " " + Shim, Shim);
      }
    }
  }

  /** The shim step is idempotent: once it has run, running it again
      appends nothing. */
  lemma ShimStageIdempotent(c: string)
    ensures ShimStage(ShimStage(c)) == ShimStage(c)
  {
    ShimStageEffect(c);
  }

  /** The extra-libraries step changes the text exactly when `libs` is
      non-empty and absent and some line declares libraries; `libs` is
      then in the text. */
  lemma LibsStageEffect(c: string, libs: string)
    ensures LibsStage(c, libs) != c <==> |libs| > 0 && !Contains(c, libs) && HasLibsLine(c)
    ensures LibsStage(c, libs) != c ==> Contains(LibsStage(c, libs), libs)
  {
    if |libs| > 0 && !Contains(c, libs) {
      AppendStage(c, " " + libs, libs, true);
      if HasLibsLine(c) {
        var k :| 0 <= k < |SplitLines(c)| && IsLibsLine(SplitLines(c)[k]);
        NoLineHolds(c, libs, k);
        ContainsTail(" ", libs);
        ContainsTrans(LibsStage(c, libs), " " + libs, libs);
      }
    }
  }

  /** The extra-libraries step is idempotent: once it has run, running it
      again appends nothing. */
  lemma LibsStageIdempotent(c: string, libs: string)
    ensures LibsStage(LibsStage(c, libs), libs) == LibsStage(c, libs)
  {
    LibsStageEffect(c, libs);
  }

  /** The append loop keeps a text the line holds, when that text does not
      end in white space: `rstrip()` cannot cut into it. */
  lemma AppendLineKeeps(line: string, add: string, guard: string, guarded: bool, x: string)
    requires Contains(line, x) && |x| > 0 && !IsSpace(x[|x| - 1])
    ensures Contains(AppendLine(line, add, guard, guarded), x)
  {
    if IsLibsLine(line) && !(guarded && Contains(line, guard)) {
      var i := ContainsWitness(line, x);
      var r := RStrip(line);
      assert line[i + |x| - 1] == line[i..i + |x|][|x| - 1] == x[|x| - 1];
      assert i + |x| <= |r|;
      assert r[i..i + |x|] == line[..|r|][i..i + |x|] == line[i..i + |x|];
      ContainsAt(r, x, i);
      ContainsInConcat(r, add, x);
    }
  }

  /** An append stage keeps every newline-free text the file holds that
      does not end in white space. */
  lemma AppendStageKeeps(c: string, add: string, guard: string, guarded: bool, x: string)
    requires Contains(c, x) && !HasChar(x, '\n') && |x| > 0 && !IsSpace(x[|x| - 1])
    ensures Contains(JoinLines(AppendLines(SplitLines(c), add, guard, guarded)), x)
  {
    var lines := SplitLines(c);
    var k := ContainsSomeLine(c, x);
    AppendLineKeeps(lines[k], add, guard, guarded, x);
    var r := AppendLines(lines, add, guard, guarded);
    ContainsLine(r, k);
    ContainsTrans(JoinLines(r), r[k], x);
  }

  /** The shim is one word: no newline, and it does not end in white space. */
  lemma ShimIsWord()
    ensures !HasChar(Shim, '\n') && |Shim| > 0 && !IsSpace(Shim[|Shim| - 1])
  {
  }

  /** A text that patch_pc of build_v2_clang.py leaves alone: not an SDL2
      file, no `prefix=/ucrt64`, no `-ldl`, and the shim and the extra
      libraries present wherever a library line exists. */
  lemma PatchClangFixedPoint(name: string, d: string, libs: string, ucrt64: string)
    requires !Contains(Fold(name), "sdl2.pc")
    requires !Contains(d, "-ldl") && !Contains(d, "prefix=/ucrt64")
    requires Contains(d, Shim) || !HasLibsLine(d)
    requires |libs| == 0 || Contains(d, libs) || !HasLibsLine(d)
    ensures PatchClang(name, d, libs, ucrt64) == d
  {
    assert FixPrefix(d, ucrt64) == d;
    ShimStageEffect(d);
    LibsStageEffect(d, libs);
    StripLdlChanges(d);
  }

  /** patch_pc of build_v2_clang.py converges: on a file that is not an SDL2
      file, a second call changes nothing, provided the text reaching the
      final `-ldl` removal holds no `-ldl` and no `prefix=/ucrt64`. The shim
      and the extra libraries are appended at most once. */
  lemma PatchClangIdempotent(name: string, c: string, libs: string, ucrt64: string)
    requires !Contains(Fold(name), "sdl2.pc")
    requires var d := LibsStage(ShimStage(FixPrefix(c, ucrt64)), libs);
      !Contains(d, "-ldl") && !Contains(d, "prefix=/ucrt64")
    ensures PatchClang(name, PatchClang(name, c, libs, ucrt64), libs, ucrt64) == PatchClang(name, c, libs, ucrt64)
  {
    var c1 := FixPrefix(c, ucrt64);
    var e := ShimStage(c1);
    var d := LibsStage(e, libs);
    StripLdlChanges(d);
    assert PatchClang(name, c, libs, ucrt64) == d;
    ShimStageEffect(c1);
    LibsStageEffect(e, libs);
    if d != e {
      ShimIsWord();
      AppendStageKeeps(e, " " + libs, libs, true, Shim);
    }
    PatchClangFixedPoint(name, d, libs, ucrt64);
  }

  /** An SDL2 file with a `Libs:` line but no `Libs.private:` (and no
      `-lSDL2main`) grows by the SDL2 system libraries on every call:
      the repair has no guard in that branch. */
  lemma SdlFixReinserts(c: string)
    requires !Contains(c, "-lSDL2main") && !Contains(c, "Libs.private:") && Contains(c, "Libs:")
    ensures |SdlFix(c)| > |c|
  {
    ReplaceAbsent(c, "-lSDL2main", "");
    ReplaceGrows(c, "Libs:", "Libs: " + SdlExtra);
  }

  /** With `Libs.private:` present, the SDL2 repair is guarded by
      `-lsetupapi`, which it inserts: a file that already has it is left
      alone (apart from dropping `-lSDL2main`). */
  lemma SdlFixPrivateGuarded(c: string)
    requires !Contains(c, "-lSDL2main") && Contains(c, "Libs.private:")
    ensures Contains(c, "-lsetupapi") ==> SdlFix(c) == c
    ensures Contains(SdlFix(c), "-lsetupapi")
  {
    ReplaceAbsent(c, "-lSDL2main", "");
    if !Contains(c, "-lsetupapi") {
      ReplaceInserts(c, "Libs.private:", "Libs.private: " + SdlExtra);
      var a := "Libs.private: " + SdlHead;
      assert "Libs.private: " + SdlExtra == (a + "-lsetupapi") + SdlTail;
      ContainsTail(a, "-lsetupapi");
      ContainsInConcat(a + "-lsetupapi", SdlTail, "-lsetupapi");
      ContainsTrans(SdlFix(c), "Libs.private: " + SdlExtra, "-lsetupapi");
    }
  }

  // -----------------------------------------------------------------------
  // create_pc (identical in both scripts)

  /** The lines of the template create_pc writes, one field each; the
      final empty piece stands for the closing newline. */
  function PcTemplateLines(pre: string, name: string, ver: string, desc: string, libs: string, reqs: string, cflags: string): seq<string>
  {
    ["prefix=" + pre, "exec_prefix=${prefix}", "libdir=${exec_prefix}/lib", "includedir=${prefix}/include", "",
     "Name: " + name, "Description: " + desc, "Version: " + ver, "Requires.private: " + reqs,
     "Libs: -L${libdir} " + libs, "Cflags: " + cflags, ""]
  }

  /** The template create_pc writes: its lines joined by newlines. */
  function PcTemplate(pre: string, name: string, ver: string, desc: string, libs: string, reqs: string, cflags: string): string
  {
    JoinLines(PcTemplateLines(pre, name, ver, desc, libs, reqs, cflags))
  }

  /** A field without a newline keeps its template line a single line. */
  lemma FieldLine(head: string, field: string)
    requires !HasChar(head, '\n') && !HasChar(field, '\n')
    ensures !HasChar(head + field, '\n')
  {
    HasCharConcat(head, field, '\n');
  }

  /** The fixed template lines hold no newline. */
  lemma FixedLinesFlat()
    ensures !HasChar("exec_prefix=${prefix}", '\n') && !HasChar("libdir=${exec_prefix}/lib", '\n')
    ensures !HasChar("includedir=${prefix}/include", '\n') && !HasChar("", '\n')
  {
  }

  /** The field headings of the template hold no newline. */
  lemma HeadsFlat()
    ensures !HasChar("prefix=", '\n') && !HasChar("Name: ", '\n') && !HasChar("Description: ", '\n')
    ensures !HasChar("Version: ", '\n') && !HasChar("Requires.private: ", '\n')
    ensures !HasChar("Libs: -L${libdir} ", '\n') && !HasChar("Cflags: ", '\n')
  {
  }

  /** For fields without a newline, every template line is a single line. */
  lemma PcTemplateFlat(pre: string, name: string, ver: string, desc: string, libs: string, reqs: string, cflags: string)
    requires !HasChar(pre, '\n') && !HasChar(name, '\n') && !HasChar(ver, '\n') && !HasChar(desc, '\n')
    requires !HasChar(libs, '\n') && !HasChar(reqs, '\n') && !HasChar(cflags, '\n')
    ensures var lines := PcTemplateLines(pre, name, ver, desc, libs, reqs, cflags);
      forall k :: 0 <= k < |lines| ==> !HasChar(lines[k], '\n')
  {
    FixedLinesFlat();
    HeadsFlat();
    FieldLine("prefix=", pre);
    FieldLine("Name: ", name);
    FieldLine("Description: ", desc);
    FieldLine("Version: ", ver);
    FieldLine("Requires.private: ", reqs);
    FieldLine("Libs: -L${libdir} ", libs);
    FieldLine("Cflags: ", cflags);
  }

  /** A line that does not start with `L` declares no libraries. */
  lemma NotLibsLine(s: string)
    requires |s| == 0 || s[0] != 'L'
    ensures !IsLibsLine(s)
  {
    if |s| > 0 {
      assert "Libs:"[0] == 'L' && "Libs.private:"[0] == 'L';
    }
  }

  /** The one template line that declares libraries is the `Libs:` line. */
  lemma PcTemplateLibsLine(pre: string, name: string, ver: string, desc: string, libs: string, reqs: string, cflags: string)
    ensures var lines := PcTemplateLines(pre, name, ver, desc, libs, reqs, cflags);
      (forall k :: 0 <= k < |lines| ==> (IsLibsLine(lines[k]) <==> k == 9)) && IsSuffix(libs, lines[9])
  {
    var lines := PcTemplateLines(pre, name, ver, desc, libs, reqs, cflags);
    assert lines[9] == "Libs: -L${libdir} " + libs;
    assert lines[9][..5] == "Libs:";
    assert lines[9][|lines[9]| - |libs|..] == libs;
    forall k | 0 <= k < |lines| && k != 9
      ensures !IsLibsLine(lines[k])
    {
      NotLibsLine(lines[k]);
    }
  }

  /** For fields without a newline the template reads back as its twelve
      lines, and the created file holds `libs`. */
  lemma PcTemplateSplits(pre: string, name: string, ver: string, desc: string, libs: string, reqs: string, cflags: string)
    requires !HasChar(pre, '\n') && !HasChar(name, '\n') && !HasChar(ver, '\n') && !HasChar(desc, '\n')
    requires !HasChar(libs, '\n') && !HasChar(reqs, '\n') && !HasChar(cflags, '\n')
    ensures SplitLines(PcTemplate(pre, name, ver, desc, libs, reqs, cflags)) == PcTemplateLines(pre, name, ver, desc, libs, reqs, cflags)
    ensures Contains(PcTemplate(pre, name, ver, desc, libs, reqs, cflags), libs)
  {
    var lines := PcTemplateLines(pre, name, ver, desc, libs, reqs, cflags);
    PcTemplateFlat(pre, name, ver, desc, libs, reqs, cflags);
    SplitJoin(lines);
    assert lines[9] == "Libs: -L${libdir} " + libs;
    ContainsTail("Libs: -L${libdir} ", libs);
    ContainsLine(lines, 9);
    ContainsTrans(PcTemplate(pre, name, ver, desc, libs, reqs, cflags), lines[9], libs);
  }

  /** Where create_pc writes the metadata file of `name`. */
  function PcPath(name: string): Path
  {
    ["lib", "pkgconfig", name + ".pc"]
  }

  /** The stale copy create_pc removes first. */
  function Pc64Path(name: string): Path
  {
    ["lib64", "pkgconfig", name + ".pc"]
  }

  /** The file writes of create_pc(name, ...): `lib64/pkgconfig/{name}.pc`
      is removed and `lib/pkgconfig/{name}.pc` created or overwritten with
      `text`; nothing else changes. */
  function WritePc(files: Files, name: string, text: string): (r: Files)
    ensures PcPath(name) in r && r[PcPath(name)] == text
    ensures Pc64Path(name) !in r
    ensures r.Keys == files.Keys - {Pc64Path(name)} + {PcPath(name)}
    ensures forall q :: q in files && q != PcPath(name) && q != Pc64Path(name) ==> r[q] == files[q]
  {
    assert PcPath(name)[0] != Pc64Path(name)[0];
    (files - {Pc64Path(name)})[PcPath(name) := text]
  }

  /** create_pc(name, ver, desc, libs, reqs, cflags) on the metadata files. */
  function CreatePc(files: Files, pre: string, name: string, ver: string, desc: string, libs: string, reqs: string, cflags: string): Files
  {
    WritePc(files, name, PcTemplate(pre, name, ver, desc, libs, reqs, cflags))
  }

  /** The metadata files whose path is in `keep`: what is left once the
      others are deleted. */
  function KeepOnly(files: Files, keep: set<Path>): (r: Files)
    ensures r.Keys == files.Keys * keep
    ensures forall q | q in r :: r[q] == files[q]
  {
    map q | q in files && q in keep :: files[q]
  }
}
