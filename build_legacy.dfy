/** The build orchestration of build.py: the package loop with its sticky
    "something was rebuilt" flag, the corruption checks on packages already
    marked as built, the metadata fixups that run on every iteration, the
    integrity gate, and the final ffmpeg and mpv builds. The install tree
    is a map from path to file text; process runs are answers given as
    inputs. */
module BuildLegacy {
  import opened Text
  import opened Glob
  import opened Purge
  import opened PkgConfig
  import opened Cli
  import opened Deps

  /** The options of one run: `--clean`, the install directory as a native
      path, and the job count. */
  datatype Config = Config(clean: bool, root: string, nproc: nat)

  /** The install prefix in MSYS form, by the script's own `to_unix`. */
  function Pre(cfg: Config): string
  {
    ToUnixLegacy(cfg.root)
  }

  /** What one iteration learns from outside: whether the source changed
      (git_sync or the tarball step), the flag template, the exit status of
      each build command, the files the install writes, and the text of
      the LuaJIT archive the build left in `src`, if any. */
  datatype Input = Input(changed: bool, flags: Option<string>, answers: seq<bool>, installs: Files,
                         luajitArchive: Option<string>)

  /** The install tree, the `deps_rebuilt` flag, and whether the script has
      stopped on a failing command. */
  datatype State = State(files: Files, rebuilt: bool, aborted: bool)

  // ---------------------------------------------------------------------
  // The corruption checks (451-484)

  /** The metadata file name the check looks for; `None` skips the check. */
  function PcName(n: string): (r: Option<string>)
    ensures r.Some? ==> r.value != ""
    ensures n in {"spirv-cross", "spirv-headers", "glslang", "bzip2", ""} ==> r.None?
  {
    if n == "gettext" then Some("libintl")
    else if n == "xz" then Some("liblzma")
    else if n == "libjpeg-turbo" then Some("libjpeg")
    else if n == "freetype" then Some("freetype2")
    else if n in {"spirv-cross", "spirv-headers", "glslang", "bzip2"} then None
    else if n == "spirv-tools" then Some("SPIRV-Tools")
    else if n == "libepoxy" then Some("epoxy")
    else if n == "libsoxr" then Some("soxr")
    else if n == "fftw" then Some("fftw3")
    else if n == "libsamplerate" then Some("samplerate")
    else if n == "" then None
    else Some(n)
  }

  /** The archive whose presence stands in for a missing metadata file. */
  function LibName(n: string): string
  {
    if n == "freetype" then "libfreetype.a"
    else if n == "libsoxr" then "libsoxr.a"
    else if n == "fftw" then "libfftw3.a"
    else "lib" + n + ".a"
  }

  /** The extra file whose absence forces a rebuild of a marked package. */
  function ExtraCheck(n: string): Option<Path>
  {
    if n == "spirv-cross" then Some(["lib", "libspirv-cross-c.a"])
    else if n == "shaderc" then Some(["lib", "libshaderc_combined.a"])
    else if n == "libplacebo" then Some(["lib", "libplacebo.a"])
    else if n == "glslang" then Some(["lib", "libglslang.a"])
    else if n == "spirv-headers" then Some(["include", "spirv", "unified1", "spirv.h"])
    else None
  }

  /** The LuaJIT archive; without it LuaJIT is rebuilt, marker or not. */
  const LuajitLib: Path := ["lib", "libluajit.a"]

  function ForceCheck(n: string): Option<Path>
  {
    if n == "luajit" then Some(LuajitLib) else None
  }

  // ---------------------------------------------------------------------
  // Work done after a successful build (499-557)

  /** Copy the file at `src`, when there is one, to `dst`. */
  function Copy(files: Files, src: Path, dst: Path): (r: Files)
    ensures src in files ==> dst in r && r[dst] == files[src]
    ensures src !in files ==> r == files
    ensures r.Keys == files.Keys + (if src in files then {dst} else {})
    ensures forall q | q in files && q != dst :: r[q] == files[q]
  {
    if src in files then files[dst := files[src]] else files
  }

  /** create_pc of build.py, with its default flags. */
  function CreatePcDefault(files: Files, pre: string, name: string, ver: string, desc: string, libs: string): Files
  {
    CreatePc(files, pre, name, ver, desc, libs, "", "-I${includedir}")
  }

  const ZlibStatic: Path := ["lib", "libzlibstatic.a"]
  const Libz: Path := ["lib", "libz.a"]

  /** The package-specific steps after the build commands: the zlib alias
      and metadata file, the gettext and libiconv metadata files, and the
      copy of the LuaJIT archive. */
  function AfterCommands(n: string, kind: Option<Kind>, inp: Input, pre: string, files: Files): (r: Files)
    ensures files.Keys - {Pc64Path("zlib"), Pc64Path("libintl"), Pc64Path("libiconv")} <= r.Keys
  {
    if n == "zlib" then
      var aliased := if ZlibStatic in files && Libz !in files then files[Libz := files[ZlibStatic]] else files;
      CreatePcDefault(aliased, pre, "zlib", "1.3", "zlib compression library", "-lz")
    else if n == "gettext" then
      CreatePcDefault(files, pre, "libintl", "0.22", "GNU gettext runtime library", "-lintl")
    else if n in NamedInLegacy then files
    else if kind == Some(Autotools) && n == "libiconv" then
      CreatePcDefault(files, pre, "libiconv", "1.17", "GNU libiconv", "-liconv")
    else if kind == Some(LuaJit) && inp.luajitArchive.Some? then
      files[LuajitLib := inp.luajitArchive.value]
    else files
  }

  /** The install tree after clean_libs. */
  function CleanedLibs(files: Files): (r: Files)
    ensures r.Keys == Remaining(files.Keys, CleanLibsJobs())
    ensures forall q | q in r :: r[q] == files[q]
  {
    KeepOnly(files, Remaining(files.Keys, CleanLibsJobs()))
  }

  /** A successful rebuild from the purged tree: the install, the
      package-specific steps, clean_libs and the marker. */
  function Installed(e: Entry, inp: Input, cfg: Config, files: Files): (r: Files)
    ensures Marker(Name(e.pkg)) in r && r[Marker(Name(e.pkg))] == ""
  {
    CleanedLibs(AfterCommands(Name(e.pkg), e.kind, inp, Pre(cfg), files + inp.installs))[Marker(Name(e.pkg)) := ""]
  }

  // ---------------------------------------------------------------------
  // The metadata fixups of every iteration (560-600)

  function Pc(name: string): Path
  {
    PcPath(name)
  }

  /** The link line of the spirv-cross metadata file: the fixed list, with
      the msl archive inserted at position 3 and then the cpp archive at
      position 4 when they are installed. */
  function SpirvLibs(msl: bool, cpp: bool): (r: seq<string>)
  {
    var base := ["-lspirv-cross-c", "-lspirv-cross-glsl", "-lspirv-cross-hlsl", "-lspirv-cross-reflect",
                 "-lspirv-cross-util", "-lspirv-cross-core", "-lstdc++"];
    var withMsl := if msl then base[..3] + ["-lspirv-cross-msl"] + base[3..] else base;
    if cpp then withMsl[..4] + ["-lspirv-cross-cpp"] + withMsl[4..] else withMsl
  }

  /** Words joined by single spaces. */
  function Spaced(words: seq<string>): string
  {
    if |words| == 0 then "" else if |words| == 1 then words[0] else words[0] + " " + Spaced(words[1..])
  }

  const PlaceboLibs := "-lstdc++ -lm -lgcc -lpthread -lvulkan-1 -lshlwapi -lgdi32 -lbcrypt -lole32 -luuid -luser32 -ld3d11 -ldxgi -lversion -llcms2 -lsetupapi -ladvapi32 -lepoxy"

  /** The shaderc_shared reference of libplacebo.pc turned into shaderc_combined. */
  function PlaceboFix(c: string): string
  {
    if Contains(c, "shaderc_shared") then ReplaceAll(c, "shaderc_shared", "shaderc_combined") else c
  }

  /** The LuaJIT aliases a build system may look for. */
  const LuaAliases: seq<string> := ["luajit-5.1", "lua51", "lua"]

  /** Copy luajit.pc to each alias that does not exist yet. */
  function LuaAliasCopies(files: Files, k: nat): (r: Files)
    requires PcPath("luajit") in files && k <= |LuaAliases|
    ensures files.Keys <= r.Keys
    ensures forall i | 0 <= i < k :: PcPath(LuaAliases[i]) in r
    ensures forall q | q in files :: r[q] == files[q]
    ensures forall q | q in r && q !in files :: r[q] == files[PcPath("luajit")]
  {
    if k == 0 then files
    else
      var prev := LuaAliasCopies(files, k - 1);
      var dst := PcPath(LuaAliases[k - 1]);
      if dst in prev then prev else prev[dst := prev[PcPath("luajit")]]
  }

  /** A path below `lib64`, the only place a fixup ever deletes from. */
  predicate Under64(q: Path)
  {
    |q| > 0 && q[0] == "lib64"
  }

  /** The fixup of package `n`, run whether `n` was rebuilt or skipped. */
  function Fixup(n: string, files: Files, pre: string): (r: Files)
    ensures forall q | q in files && !Under64(q) :: q in r
  {
    if n == "gettext" then CreatePcDefault(files, pre, "libintl", "0.22", "GNU gettext runtime library", "-lintl")
    else if n == "libiconv" then CreatePcDefault(files, pre, "libiconv", "1.17", "GNU libiconv", "-liconv")
    else if n == "fontconfig" then PatchPcLegacy(files, Pc("fontconfig"), "-lintl -liconv")
    else if n == "freetype" then PatchPcLegacy(files, Pc("freetype2"), "-lbz2 -lpng -lharfbuzz -lintl -liconv")
    else if n == "libass" then PatchPcLegacy(files, Pc("libass"), "-lharfbuzz -lintl -liconv")
    else if n == "shaderc" then
      var f := CreatePcDefault(files, pre, "shaderc", "2023.7", "shaderc", "-lshaderc_combined -lstdc++ -lm -lpthread");
      var combined: Path := ["lib", "libshaderc_combined.a"];
      Copy(Copy(f, combined, ["lib", "libshaderc_shared.a"]), combined, ["lib", "libshaderc.a"])
    else if n == "spirv-cross" then
      var libs := Spaced(SpirvLibs(["lib", "libspirv-cross-msl.a"] in files, ["lib", "libspirv-cross-cpp.a"] in files));
      var f := CreatePc(files, pre, "spirv-cross-c-shared", "0.67.0", "SPIRV-Cross C Shared", libs, "",
                        "-I${includedir}/spirv_cross -I${includedir}");
      Copy(f, ["lib", "libspirv-cross-c.a"], ["lib", "libspirv-cross-c-shared.a"])
    else if n == "libplacebo" then
      var f := PatchPcLegacy(files, Pc("libplacebo"), PlaceboLibs);
      if Pc("libplacebo") in f then f[Pc("libplacebo") := PlaceboFix(f[Pc("libplacebo")])] else f
    else if n == "harfbuzz" then PatchPcLegacy(files, Pc("harfbuzz"), "-lstdc++")
    else if n == "dav1d" then PatchPcLegacy(files, Pc("dav1d"), "-lpthread")
    else if n == "luajit" then
      var f := PatchPcLegacy(files, Pc("luajit"), "-lm");
      if Pc("luajit") in f then LuaAliasCopies(Copy(f, LuajitLib, ["lib", "libluajit-5.1.a"]), |LuaAliases|) else f
    else if n == "rubberband" then PatchPcLegacy(files, Pc("rubberband"), "-lstdc++")
    else files
  }

  /** With its metadata file in place, the LuaJIT fixup leaves all three
      aliases behind; an alias that already existed keeps its text, a new
      one is a copy of the patched luajit.pc. */
  lemma LuajitAliases(files: Files, pre: string)
    requires Pc("luajit") in files
    ensures var r := Fixup("luajit", files, pre);
            && (forall i | 0 <= i < |LuaAliases| :: Pc(LuaAliases[i]) in r)
            && r[Pc("luajit")] == PatchLegacy(files[Pc("luajit")], "-lm")
            && (forall i | 0 <= i < |LuaAliases| && Pc(LuaAliases[i]) in files ::
                  r[Pc(LuaAliases[i])] == files[Pc(LuaAliases[i])])
            && (forall i | 0 <= i < |LuaAliases| && Pc(LuaAliases[i]) !in files ::
                  r[Pc(LuaAliases[i])] == PatchLegacy(files[Pc("luajit")], "-lm"))
  {
    var f := PatchPcLegacy(files, Pc("luajit"), "-lm");
    var g := Copy(f, LuajitLib, ["lib", "libluajit-5.1.a"]);
    assert g[Pc("luajit")] == PatchLegacy(files[Pc("luajit")], "-lm");
    forall i | 0 <= i < |LuaAliases| && Pc(LuaAliases[i]) in files
      ensures Fixup("luajit", files, pre)[Pc(LuaAliases[i])] == files[Pc(LuaAliases[i])]
    {
      assert Pc(LuaAliases[i]) != Pc("luajit") by { assert Pc(LuaAliases[i])[2] != Pc("luajit")[2]; }
    }
  }

  /** When the combined shaderc archive is installed, the shaderc fixup
      gives it its two other names. */
  lemma ShadercAliases(files: Files, pre: string)
    requires ["lib", "libshaderc_combined.a"] in files
    ensures var r := Fixup("shaderc", files, pre);
            && r[["lib", "libshaderc_shared.a"]] == files[["lib", "libshaderc_combined.a"]]
            && r[["lib", "libshaderc.a"]] == files[["lib", "libshaderc_combined.a"]]
            && r[Pc("shaderc")] == PcTemplate(pre, "shaderc", "2023.7", "shaderc", "-lshaderc_combined -lstdc++ -lm -lpthread", "", "-I${includedir}")
  {
  }

  /** The spirv-cross link line always starts with the C API and ends with
      the C++ runtime, and names the msl and cpp archives exactly when they
      are installed. */
  lemma SpirvLibsShape(msl: bool, cpp: bool)
    ensures var r := SpirvLibs(msl, cpp);
            && |r| == 7 + (if msl then 1 else 0) + (if cpp then 1 else 0)
            && r[0] == "-lspirv-cross-c" && r[|r| - 1] == "-lstdc++"
            && ("-lspirv-cross-msl" in r <==> msl)
            && ("-lspirv-cross-cpp" in r <==> cpp)
  {
    var c := "-lspirv-cross-c";
    var g := "-lspirv-cross-glsl";
    var h := "-lspirv-cross-hlsl";
    var rf := "-lspirv-cross-reflect";
    var u := "-lspirv-cross-util";
    var co := "-lspirv-cross-core";
    var st := "-lstdc++";
    var m := "-lspirv-cross-msl";
    var p := "-lspirv-cross-cpp";
    assert m != p by { assert m[14] != p[14]; }
    if msl && cpp {
      assert SpirvLibs(msl, cpp) == [c, g, h, m, p, rf, u, co, st];
    } else if msl {
      assert SpirvLibs(msl, cpp) == [c, g, h, m, rf, u, co, st];
    } else if cpp {
      assert SpirvLibs(msl, cpp) == [c, g, h, rf, p, u, co, st];
    } else {
      assert SpirvLibs(msl, cpp) == [c, g, h, rf, u, co, st];
    }
  }

  // ---------------------------------------------------------------------
  // The loop (394-600)

  /** What one iteration needs to know about its row: its package and
      name, whether its source changed, the files its corruption checks
      look at, the deletions before its build commands, the commands and
      their exit statuses, what a successful build does to the purged
      tree, and its fixup. */
  datatype Row = Row(pkg: Pkg, name: string, changed: bool,
                     pc: Option<Path>, lib: Path, extra: Option<Path>, force: Option<Path>,
                     jobs: seq<Job>, cmds: seq<Cmd>, answers: seq<bool>,
                     build: Files -> Files, fixup: Files -> Files)

  /** remove_pkg, and before the zlib build also clean_libs. */
  function PurgeJobs(n: string): seq<Job>
  {
    RemovePkgJobs(Legacy, n) + (if n == "zlib" then CleanLibsJobs() else [])
  }

  /** The row of table entry `e` in this run. */
  function RowOf(e: Entry, inp: Input, cfg: Config): (r: Row)
    ensures r.pkg == e.pkg && r.name == Name(e.pkg) && r.changed == inp.changed
    ensures r.pc == (if PcName(r.name).Some? then Some(PcPath(PcName(r.name).value)) else None)
    ensures r.lib == ["lib", LibName(r.name)] && r.extra == ExtraCheck(r.name) && r.force == ForceCheck(r.name)
    ensures r.jobs == PurgeJobs(r.name) && r.answers == inp.answers
    ensures r.cmds == DispatchLegacy(r.name, e.kind, SubstPre(inp.flags, Pre(cfg)), cfg.nproc)
    ensures forall f :: r.fixup(f) == Fixup(r.name, f, Pre(cfg))
  {
    var n := Name(e.pkg);
    Row(e.pkg, n, inp.changed,
        if PcName(n).Some? then Some(PcPath(PcName(n).value)) else None,
        ["lib", LibName(n)], ExtraCheck(n), ForceCheck(n),
        PurgeJobs(n), DispatchLegacy(n, e.kind, SubstPre(inp.flags, Pre(cfg)), cfg.nproc), inp.answers,
        f => Installed(e, inp, cfg, f), f => Fixup(n, f, Pre(cfg)))
  }

  /** A corruption check fires: the LuaJIT archive is missing, or the
      package is marked as built but its metadata file and its archive are
      both missing, or its extra file is missing. */
  predicate Corrupt(files: Files, r: Row)
  {
    || (r.force.Some? && r.force.value !in files)
    || (Marker(r.name) in files &&
          ((r.pc.Some? && r.pc.value !in files && r.lib !in files) || (r.extra.Some? && r.extra.value !in files)))
  }

  /** The rebuild condition: `--clean`, no marker, or `changed`, which the
      source step, the corruption checks and any earlier rebuild set. */
  predicate Due(clean: bool, files: Files, r: Row, rebuilt: bool)
  {
    clean || Marker(r.name) !in files || r.changed || Corrupt(files, r) || rebuilt
  }

  /** One iteration: a failing command stops the script with the package
      purged; otherwise the rebuild (when due) and then the fixup. */
  function Step(r: Row, clean: bool, s: State): (t: State)
    ensures s.aborted ==> t == s
    ensures !s.aborted && !Due(clean, s.files, r, s.rebuilt) ==> t == State(r.fixup(s.files), s.rebuilt, false)
    ensures !s.aborted && Due(clean, s.files, r, s.rebuilt) ==>
              t.aborted == !Succeeds(r.answers, |r.cmds|) && (!t.aborted ==> t.rebuilt)
    ensures t.rebuilt == (s.rebuilt || (!s.aborted && Due(clean, s.files, r, s.rebuilt) && Succeeds(r.answers, |r.cmds|)))
  {
    if s.aborted then s
    else if !Due(clean, s.files, r, s.rebuilt) then State(r.fixup(s.files), s.rebuilt, false)
    else
      var purged := KeepOnly(s.files, Remaining(s.files.Keys, r.jobs));
      if !Succeeds(r.answers, |r.cmds|) then State(purged, s.rebuilt, true)
      else State(r.fixup(r.build(purged)), true, false)
  }

  /** The state after the first `k` rows. */
  function Run(k: nat, rows: seq<Row>, clean: bool, s0: State): State
    requires k <= |rows|
  {
    if k == 0 then s0 else Step(rows[k - 1], clean, Run(k - 1, rows, clean, s0))
  }

  /** The rows of the table of build.py in this run. */
  function LegacyRows(cfg: Config, ins: seq<Input>): (rows: seq<Row>)
    requires |ins| == LegacyCount
    ensures |rows| == LegacyCount
    ensures forall i | 0 <= i < LegacyCount :: rows[i] == RowOf(LegacyAt(i), ins[i], cfg)
  {
    seq(LegacyCount, i requires 0 <= i < LegacyCount => RowOf(LegacyAt(i), ins[i], cfg))
  }

  /** One iteration, statement by statement. */
  method BuildRow(r: Row, clean: bool, s: State) returns (t: State)
    requires !s.aborted
    ensures t == Step(r, clean, s)
  {
    var changed := r.changed;
    if r.force.Some? && r.force.value !in s.files {
      changed := true;
    }
    var m := Marker(r.name);
    if m in s.files {
      if r.pc.Some? && r.pc.value !in s.files && r.lib !in s.files {
        changed := true;
      }
      if r.extra.Some? && r.extra.value !in s.files {
        changed := true;
      }
    }
    if s.rebuilt {
      changed := true;
    }
    assert changed == (r.changed || Corrupt(s.files, r) || s.rebuilt);
    var files := s.files;
    var rebuilt := s.rebuilt;
    if clean || m !in files || changed {
      var keep := DeleteMatching(files.Keys, r.jobs);
      assert keep == Remaining(files.Keys, r.jobs);
      files := KeepOnly(files, keep);
      var ok, ran := MRun(r.cmds, Outcomes(r.answers, |r.cmds|));
      if !ok {
        return State(files, s.rebuilt, true);
      }
      files := r.build(files);
      rebuilt := true;
    }
    t := State(r.fixup(files), rebuilt, false);
  }

  /** Once the script has stopped, the remaining rows change nothing. */
  lemma {:induction false} AbortedStays(k: nat, k2: nat, rows: seq<Row>, clean: bool, s0: State)
    requires k <= k2 <= |rows|
    requires Run(k, rows, clean, s0).aborted
    ensures Run(k2, rows, clean, s0) == Run(k, rows, clean, s0)
    decreases k2
  {
    if k2 > k {
      AbortedStays(k, k2 - 1, rows, clean, s0);
    }
  }

  /** The package loop: every row in order, until a command fails. */
  method RunRows(rows: seq<Row>, clean: bool, files: Files) returns (s: State)
    ensures s == Run(|rows|, rows, clean, State(files, false, false))
  {
    s := State(files, false, false);
    var i := 0;
    while i < |rows| && !s.aborted
      invariant 0 <= i <= |rows|
      invariant s == Run(i, rows, clean, State(files, false, false))
    {
      s := BuildRow(rows[i], clean, s);
      i := i + 1;
    }
    if s.aborted {
      AbortedStays(i, |rows|, rows, clean, State(files, false, false));
    }
  }

  // ---------------------------------------------------------------------
  // Properties of the loop

  /** The `deps_rebuilt` flag never goes back to false. */
  lemma {:induction false} Sticky(j: nat, k: nat, rows: seq<Row>, clean: bool, s0: State)
    requires j <= k <= |rows| && Run(j, rows, clean, s0).rebuilt
    ensures Run(k, rows, clean, s0).rebuilt
    decreases k
  {
    if k > j {
      Sticky(j, k - 1, rows, clean, s0);
    }
  }

  /** Once any package is rebuilt, every later package the loop reaches is
      rebuilt too, whatever its marker and source say. */
  lemma EveryLaterRowDue(j: nat, k: nat, rows: seq<Row>, clean: bool, s0: State)
    requires j < k < |rows| && Run(j + 1, rows, clean, s0).rebuilt
    requires !Run(k, rows, clean, s0).aborted
    ensures Due(clean, Run(k, rows, clean, s0).files, rows[k], Run(k, rows, clean, s0).rebuilt)
    ensures Run(k + 1, rows, clean, s0).aborted || Run(k + 1, rows, clean, s0).files == rows[k].fixup(rows[k].build(
              KeepOnly(Run(k, rows, clean, s0).files, Remaining(Run(k, rows, clean, s0).files.Keys, rows[k].jobs))))
  {
    Sticky(j + 1, k, rows, clean, s0);
  }

  /** Row `i` is due when the loop reaches it and builds successfully. */
  predicate RebuildsAt(i: nat, rows: seq<Row>, clean: bool, s0: State)
    requires i < |rows|
  {
    var s := Run(i, rows, clean, s0);
    !s.aborted && Due(clean, s.files, rows[i], s.rebuilt) && Succeeds(rows[i].answers, |rows[i].cmds|)
  }

  /** The flag after `k` rows is set exactly when it was set at the start
      or some row among the first `k` was due and built successfully. */
  lemma {:induction false} RebuiltIff(k: nat, rows: seq<Row>, clean: bool, s0: State)
    requires k <= |rows|
    ensures Run(k, rows, clean, s0).rebuilt <==> s0.rebuilt || exists i | 0 <= i < k :: RebuildsAt(i, rows, clean, s0)
  {
    if k > 0 {
      RebuiltIff(k - 1, rows, clean, s0);
      if RebuildsAt(k - 1, rows, clean, s0) {
        assert Run(k, rows, clean, s0).rebuilt;
      }
    }
  }

  /** The state after `k` rows depends on those rows only: a package is
      handled once, at its place in the table, and never revisited. */
  lemma {:induction false} PrefixOnly(k: nat, rows: seq<Row>, rows2: seq<Row>, clean: bool, s0: State)
    requires k <= |rows| && k <= |rows2| && rows[..k] == rows2[..k]
    ensures Run(k, rows, clean, s0) == Run(k, rows2, clean, s0)
  {
    if k > 0 {
      assert rows[..k - 1] == rows2[..k - 1] by {
        assert rows[..k - 1] == rows[..k][..k - 1];
        assert rows2[..k - 1] == rows2[..k][..k - 1];
      }
      assert rows[k - 1] == rows[..k][k - 1];
      assert rows2[k - 1] == rows2[..k][k - 1];
      PrefixOnly(k - 1, rows, rows2, clean, s0);
    }
  }

  /** A marked package whose metadata file is missing is rebuilt when its
      archive is missing as well, and skipped (with a warning) when the
      archive is there and nothing else calls for a rebuild. */
  lemma MissingPcNeedsMissingLib(r: Row, files: Files)
    requires Marker(r.name) in files && r.pc.Some? && r.pc.value !in files
    requires !r.changed && (r.force.None? || r.force.value in files) && (r.extra.None? || r.extra.value in files)
    ensures Due(false, files, r, false) <==> r.lib !in files
  {
  }

  /** LuaJIT without its archive is rebuilt even when marked and unchanged. */
  lemma LuajitForced(e: Entry, inp: Input, cfg: Config, files: Files)
    requires e.pkg == Luajit && LuajitLib !in files
    ensures Due(false, files, RowOf(e, inp, cfg), false)
  {
  }

  /** A marked spirv-headers without its header is rebuilt, although it
      has no metadata file to check. */
  lemma SpirvHeadersChecked(e: Entry, inp: Input, cfg: Config, files: Files)
    requires e.pkg == SpirvHeaders && Marker("spirv-headers") in files
    requires ["include", "spirv", "unified1", "spirv.h"] !in files
    ensures Due(false, files, RowOf(e, inp, cfg), false)
  {
  }

  /** A package that is not due gets its fixup all the same, so a skipped
      package's metadata files are rewritten on every run. */
  lemma SkippedStillFixed(e: Entry, inp: Input, cfg: Config, s: State)
    requires !s.aborted && !Due(cfg.clean, s.files, RowOf(e, inp, cfg), s.rebuilt)
    ensures Step(RowOf(e, inp, cfg), cfg.clean, s) == State(Fixup(Name(e.pkg), s.files, Pre(cfg)), s.rebuilt, false)
  {
  }

  /** Every row's marker and checked files are in `files`. */
  predicate Settled(rows: seq<Row>, files: Files)
  {
    forall i | 0 <= i < |rows| ::
      && Marker(rows[i].name) in files
      && !Corrupt(files, rows[i])
  }

  /** The fixup of the row deletes nothing but files below `lib64`. */
  ghost predicate KeepsFiles(r: Row)
  {
    forall f: Files, q: Path | q in f && !Under64(q) :: q in r.fixup(f)
  }

  /** The paths the checks of the row look at, none below `lib64`. */
  predicate Watched(r: Row)
  {
    && !Under64(Marker(r.name)) && !Under64(r.lib)
    && (r.pc.None? || !Under64(r.pc.value))
    && (r.extra.None? || !Under64(r.extra.value))
    && (r.force.None? || !Under64(r.force.value))
  }

  lemma RowOfKeeps(e: Entry, inp: Input, cfg: Config)
    ensures KeepsFiles(RowOf(e, inp, cfg))
  {
  }

  /** None of the files the checks of package `n` look at lies below `lib64`. */
  lemma NameWatched(n: string)
    ensures !Under64(Marker(n)) && !Under64(["lib", LibName(n)])
    ensures PcName(n).Some? ==> !Under64(PcPath(PcName(n).value))
    ensures ExtraCheck(n).Some? ==> !Under64(ExtraCheck(n).value)
    ensures ForceCheck(n).Some? ==> !Under64(ForceCheck(n).value)
  {
  }

  lemma RowOfWatched(e: Entry, inp: Input, cfg: Config)
    ensures Watched(RowOf(e, inp, cfg))
  {
    NameWatched(Name(e.pkg));
  }

  /** A check that passes keeps passing once files are added. */
  lemma SettledGrows(rows: seq<Row>, f: Files, g: Files)
    requires Settled(rows, f) && forall i | 0 <= i < |rows| :: Watched(rows[i])
    requires forall q | q in f && !Under64(q) :: q in g
    ensures Settled(rows, g)
  {
  }

  /** A rerun with nothing changed and every package in place rebuilds
      nothing and does not stop: it only runs the fixups. */
  lemma {:induction false} QuietRun(k: nat, rows: seq<Row>, s0: State)
    requires k <= |rows| && !s0.aborted && !s0.rebuilt && Settled(rows, s0.files)
    requires forall i | 0 <= i < |rows| :: !rows[i].changed && KeepsFiles(rows[i]) && Watched(rows[i])
    ensures !Run(k, rows, false, s0).aborted && !Run(k, rows, false, s0).rebuilt
    ensures Settled(rows, Run(k, rows, false, s0).files)
  {
    if k > 0 {
      QuietRun(k - 1, rows, s0);
      var s := Run(k - 1, rows, false, s0);
      var r := rows[k - 1];
      assert !Due(false, s.files, r, false);
      SettledGrows(rows, s.files, r.fixup(s.files));
    }
  }

  // ---------------------------------------------------------------------
  // After the loop: the gate, the zlib alias, ffmpeg and mpv (602-663)

  /** The files the integrity gate asks for. */
  const LibassPc: Path := ["lib", "pkgconfig", "libass.pc"]
  const SpirvHeader: Path := ["include", "spirv_cross", "spirv_cross_c.h"]

  predicate GatePasses(files: Files)
  {
    LibassPc in files && SpirvHeader in files
  }

  /** clean_libs after the gate, then the copy of libzlibstatic.a to
      libz.a when the former exists. */
  function Restored(files: Files): (r: Files)
  {
    var cleaned := CleanedLibs(files);
    if ZlibStatic in cleaned then cleaned[Libz := cleaned[ZlibStatic]] else cleaned
  }

  /** The restore of libz.a never happens: clean_libs has just deleted
      libzlibstatic.a, so ffmpeg is configured with neither archive. */
  lemma ZlibNeverRestored(files: Files)
    ensures ZlibStatic !in Restored(files) && Libz !in Restored(files)
  {
    assert Fold("libzlibstatic.a") == "libzlibstatic.a";
    assert Fold("libz.a") == "libz.a";
    CleanLibsRemovesZlibArchives(files.Keys, "libzlibstatic.a");
    CleanLibsRemovesZlibArchives(files.Keys, "libz.a");
  }

  /** What the end of the script learns from outside: whether the ffmpeg
      and mpv sources changed, the exit status of their commands, what
      their installs write, and `--force-mpv`. */
  datatype Final = Final(fChanged: bool, fAnswers: seq<bool>, fInstalls: Files,
                         mChanged: bool, mAnswers: seq<bool>, mInstalls: Files, forceMpv: bool)

  /** ffmpeg is rebuilt on `--clean`, a missing marker, a changed source,
      or any package rebuilt by the loop. */
  predicate FfmpegDue(clean: bool, files: Files, fin: Final, rebuilt: bool)
  {
    clean || Marker("ffmpeg") !in files || fin.fChanged || rebuilt
  }

  /** mpv is rebuilt on the same grounds, and also on a changed mpv
      source, a changed ffmpeg source or `--force-mpv`. */
  predicate MpvDue(clean: bool, files: Files, fin: Final, rebuilt: bool)
  {
    clean || Marker("mpv") !in files || fin.mChanged || rebuilt || fin.fChanged || fin.forceMpv
  }

  /** The libraries removed with ffmpeg before its build. */
  const FfmpegLibs: seq<string> := ["ffmpeg", "avcodec", "avdevice", "avfilter", "avformat", "avutil", "swresample", "swscale", "postproc"]

  function RemoveAllJobs(names: seq<string>): seq<Job>
  {
    if |names| == 0 then [] else RemovePkgJobs(Legacy, names[0]) + RemoveAllJobs(names[1..])
  }

  /** configure, make, make install: a failure stops the script. */
  const FinalCommands := 3

  /** The ffmpeg build, when due. */
  function FfmpegStep(clean: bool, fin: Final, jobs: seq<Job>, s: State): (t: State)
    ensures !FfmpegDue(clean, s.files, fin, s.rebuilt) ==> t == s
    ensures FfmpegDue(clean, s.files, fin, s.rebuilt) && Succeeds(fin.fAnswers, FinalCommands) ==>
              !t.aborted && Marker("ffmpeg") in t.files
    ensures t.rebuilt == s.rebuilt
  {
    if !FfmpegDue(clean, s.files, fin, s.rebuilt) then s
    else
      var purged := KeepOnly(s.files, Remaining(s.files.Keys, jobs));
      if !Succeeds(fin.fAnswers, FinalCommands) then State(purged, s.rebuilt, true)
      else State((purged + fin.fInstalls)[Marker("ffmpeg") := ""], s.rebuilt, false)
  }

  /** The mpv build, when due: clean_libs, the commands, the marker, then
      every file directly in `bin` but mpv.exe and mpv.com is removed. */
  function MpvStep(clean: bool, fin: Final, s: State): (t: State)
    ensures !MpvDue(clean, s.files, fin, s.rebuilt) ==> t == s
    ensures MpvDue(clean, s.files, fin, s.rebuilt) && Succeeds(fin.mAnswers, FinalCommands) ==>
              && !t.aborted && Marker("mpv") in t.files
              && forall p | p in t.files && InDir(["bin"], p) :: p[1] in LegacyBinKeep
    ensures t.rebuilt == s.rebuilt
  {
    if !MpvDue(clean, s.files, fin, s.rebuilt) then s
    else
      var cleaned := CleanedLibs(s.files);
      if !Succeeds(fin.mAnswers, FinalCommands) then State(cleaned, s.rebuilt, true)
      else
        var marked := (cleaned + fin.mInstalls)[Marker("mpv") := ""];
        assert !InDir(["bin"], Marker("mpv"));
        State(KeepOnly(marked, CleanBinLegacy(marked.Keys)), s.rebuilt, false)
  }

  /** The end of the script: the gate, the zlib restore, ffmpeg, mpv. */
  function Tail(clean: bool, s: State, fin: Final): (t: State)
    ensures s.aborted ==> t == s
    ensures !s.aborted && !GatePasses(s.files) ==> t.aborted && t.files == s.files
  {
    if s.aborted then s
    else if !GatePasses(s.files) then State(s.files, s.rebuilt, true)
    else
      var s1 := FfmpegStep(clean, fin, RemoveAllJobs(FfmpegLibs), State(Restored(s.files), s.rebuilt, false));
      if s1.aborted then s1 else MpvStep(clean, fin, s1)
  }

  /** A whole run of build.py from the install tree `files0`: `--clean`
      starts from an empty tree. */
  function Whole(cfg: Config, ins: seq<Input>, fin: Final, files0: Files): State
    requires |ins| == LegacyCount
  {
    var start := if cfg.clean then map[] else files0;
    Tail(cfg.clean, Run(LegacyCount, LegacyRows(cfg, ins), cfg.clean, State(start, false, false)), fin)
  }

  /** clean_libs and the libz.a restore, statement by statement. */
  method Restore(files: Files) returns (r: Files)
    ensures r == Restored(files)
  {
    var keep := CleanLibs(files.Keys);
    r := KeepOnly(files, keep);
    if ZlibStatic in r {
      r := r[Libz := r[ZlibStatic]];
    }
  }

  /** The ffmpeg build, statement by statement. */
  method BuildFfmpeg(clean: bool, fin: Final, nproc: nat, jobs: seq<Job>, s: State) returns (t: State)
    requires !s.aborted
    ensures t == FfmpegStep(clean, fin, jobs, s)
  {
    t := s;
    if FfmpegDue(clean, s.files, fin, s.rebuilt) {
      var keep := DeleteMatching(s.files.Keys, jobs);
      assert keep == Remaining(s.files.Keys, jobs);
      var files := KeepOnly(s.files, keep);
      var ok, ran := MRun(Triple(Autotools, "", nproc), Outcomes(fin.fAnswers, FinalCommands));
      if !ok {
        return State(files, s.rebuilt, true);
      }
      t := State((files + fin.fInstalls)[Marker("ffmpeg") := ""], s.rebuilt, false);
    }
  }

  /** The mpv build and the cleanup of `bin`, statement by statement. */
  method BuildMpv(clean: bool, fin: Final, nproc: nat, s: State) returns (t: State)
    requires !s.aborted
    ensures t == MpvStep(clean, fin, s)
  {
    t := s;
    if MpvDue(clean, s.files, fin, s.rebuilt) {
      var keep := CleanLibs(s.files.Keys);
      var files := KeepOnly(s.files, keep);
      var ok, ran := MRun(Triple(Meson, "", nproc), Outcomes(fin.mAnswers, FinalCommands));
      if !ok {
        return State(files, s.rebuilt, true);
      }
      files := (files + fin.mInstalls)[Marker("mpv") := ""];
      keep := CleanBinLegacy(files.Keys);
      t := State(KeepOnly(files, keep), s.rebuilt, false);
    }
  }

  /** The end of the script, statement by statement. */
  method Finish(clean: bool, fin: Final, nproc: nat, s0: State) returns (s: State)
    ensures s == Tail(clean, s0, fin)
  {
    s := s0;
    if s.aborted {
      return;
    }
    if !(LibassPc in s.files && SpirvHeader in s.files) {
      return State(s.files, s.rebuilt, true);
    }
    var files := Restore(s.files);
    s := BuildFfmpeg(clean, fin, nproc, RemoveAllJobs(FfmpegLibs), State(files, s.rebuilt, false));
    if s.aborted {
      return;
    }
    s := BuildMpv(clean, fin, nproc, s);
  }

  /** The whole run, statement by statement. */
  method BuildAll(cfg: Config, ins: seq<Input>, fin: Final, files0: Files) returns (s: State)
    requires |ins| == LegacyCount
    ensures s == Whole(cfg, ins, fin, files0)
  {
    var start := files0;
    if cfg.clean {
      start := map[];
    }
    s := RunRows(LegacyRows(cfg, ins), cfg.clean, start);
    s := Finish(cfg.clean, fin, cfg.nproc, s);
  }

  /** A failed gate stops the script before ffmpeg: its marker and the
      tree stay as the loop left them. */
  lemma GateStopsBeforeFfmpeg(cfg: Config, ins: seq<Input>, fin: Final, files0: Files)
    requires |ins| == LegacyCount
    requires var s := Run(LegacyCount, LegacyRows(cfg, ins), cfg.clean, State(if cfg.clean then map[] else files0, false, false));
             !s.aborted && !GatePasses(s.files)
    ensures Whole(cfg, ins, fin, files0).aborted
    ensures Whole(cfg, ins, fin, files0).files ==
            Run(LegacyCount, LegacyRows(cfg, ins), cfg.clean, State(if cfg.clean then map[] else files0, false, false)).files
  {
  }

  /** A change to the ffmpeg source alone rebuilds both ffmpeg and mpv. */
  lemma FfmpegChangeRebuildsMpv(s: State, fin: Final)
    requires !s.aborted && !s.rebuilt && GatePasses(s.files)
    requires fin.fChanged && Succeeds(fin.fAnswers, FinalCommands)
    ensures var s1 := FfmpegStep(false, fin, RemoveAllJobs(FfmpegLibs), State(Restored(s.files), false, false));
            !s1.aborted && MpvDue(false, s1.files, fin, s1.rebuilt)
  {
  }

  /** Whenever the script finishes after building mpv, `bin` holds no file
      but mpv.exe and mpv.com. */
  lemma MpvLeavesOnlyMpv(clean: bool, s: State, fin: Final)
    requires !s.aborted && GatePasses(s.files)
    requires var s1 := FfmpegStep(clean, fin, RemoveAllJobs(FfmpegLibs), State(Restored(s.files), s.rebuilt, false));
             !s1.aborted && MpvDue(clean, s1.files, fin, s1.rebuilt) && Succeeds(fin.mAnswers, FinalCommands)
    ensures var t := Tail(clean, s, fin);
            !t.aborted && Marker("mpv") in t.files && forall p | p in t.files && InDir(["bin"], p) :: p[1] in LegacyBinKeep
  {
  }

  /** After a quiet loop with the ffmpeg and mpv markers in place and
      nothing changed outside, the end of the script builds nothing. */
  lemma QuietTail(s: State, fin: Final)
    requires !s.aborted && !s.rebuilt && GatePasses(s.files)
    requires Marker("ffmpeg") in s.files && Marker("mpv") in s.files
    requires !fin.fChanged && !fin.mChanged && !fin.forceMpv
    ensures Tail(false, s, fin) == State(Restored(s.files), false, false)
  {
    assert Marker("ffmpeg") in Restored(s.files) by {
      assert Marker("ffmpeg") in CleanedLibs(s.files) by { CleanLibsKeepsMarker(s.files, "ffmpeg"); }
    }
    assert Marker("mpv") in Restored(s.files) by {
      assert Marker("mpv") in CleanedLibs(s.files) by { CleanLibsKeepsMarker(s.files, "mpv"); }
    }
  }

  /** clean_libs never deletes a marker. */
  lemma CleanLibsKeepsMarker(files: Files, n: string)
    requires Marker(n) in files
    ensures Marker(n) in CleanedLibs(files)
  {
    CleanLibsHit(Marker(n));
  }

  /** A rerun of build.py without `--clean`, with every source unchanged
      and every package in place, rebuilds nothing in its loop, and with
      the gate passing and ffmpeg and mpv unchanged and marked, builds
      nothing at all: it only rewrites metadata files and runs clean_libs. */
  lemma QuietWhole(cfg: Config, ins: seq<Input>, fin: Final, files0: Files)
    requires |ins| == LegacyCount && !cfg.clean
    requires forall i | 0 <= i < LegacyCount :: !ins[i].changed
    requires Settled(LegacyRows(cfg, ins), files0)
    ensures var s := Run(LegacyCount, LegacyRows(cfg, ins), false, State(files0, false, false));
            && !s.aborted && !s.rebuilt
            && (GatePasses(s.files) && Marker("ffmpeg") in s.files && Marker("mpv") in s.files
                && !fin.fChanged && !fin.mChanged && !fin.forceMpv
                ==> Whole(cfg, ins, fin, files0) == State(Restored(s.files), false, false))
  {
    var rows := LegacyRows(cfg, ins);
    forall i | 0 <= i < |rows|
      ensures !rows[i].changed && KeepsFiles(rows[i]) && Watched(rows[i])
    {
      RowOfKeeps(LegacyAt(i), ins[i], cfg);
      RowOfWatched(LegacyAt(i), ins[i], cfg);
    }
    QuietRun(LegacyCount, rows, State(files0, false, false));
    var s := Run(LegacyCount, rows, false, State(files0, false, false));
    if GatePasses(s.files) && Marker("ffmpeg") in s.files && Marker("mpv") in s.files
       && !fin.fChanged && !fin.mChanged && !fin.forceMpv {
      QuietTail(s, fin);
    }
  }
}
