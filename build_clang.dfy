/** The package loop of build_v2_clang.py (633-838) and the project builds
    after it (840-937). Per package: an integrity check that drops the
    marker of a package whose expected output is gone, the staleness
    decision with explicit dependency propagation through `updated_libs`,
    and the rebuild (purge, build commands, metadata repairs, marker). The
    install tree is a map from relative path to file text; files whose
    text does not matter (archives, markers) are in it all the same. */
module BuildClang {
  import opened Text
  import opened Glob
  import opened Purge
  import opened PkgConfig
  import opened Cli
  import opened Deps

  /** Settings fixed for the whole run: `--clean`, the native path of the
      install directory, the MSYS2 `ucrt64` directory, the job count, and
      the hard-coded metadata bodies written for libarchive and
      spirv-cross, kept opaque. */
  datatype Config = Config(clean: bool, root: string, ucrt64: string, nproc: nat, archivePc: string, crossPc: string)

  /** `pre`: the install directory in MSYS2 form. */
  function Pre(cfg: Config): string
  {
    ToUnix(cfg.root)
  }

  /** What the loop learns from outside about one package: whether its
      source changed (git_sync or the tarball branch), its flag template,
      what its unpacked tree holds, whether each build command succeeds
      (commands past the end of `answers` succeed), and the files its
      install commands write. */
  datatype Input = Input(changed: bool, flags: Option<string>, tree: Tree, answers: seq<bool>, installs: Files)

  /** The loop state: the install tree, `updated_libs`, and whether a build
      command has failed, which ends the run with the exception. */
  datatype State = State(files: Files, updated: set<Pkg>, aborted: bool)

  // ---------------------------------------------------------------------
  // Integrity check

  /** `output_check_map`: the file whose absence betrays a stale marker,
      by default the package's own metadata file; `None` means no check. */
  function Expected(p: Pkg): (r: Option<Path>)
    ensures r.None? <==> p in {Gettext, Glslang, SpirvTools, SpirvHeaders}
    ensures r.Some? ==> |r.value| >= 2 && r.value[0] == "lib"
    ensures p !in {Gettext, Glslang, SpirvTools, SpirvHeaders, Bzip2, Libiconv, Libsoxr, Xz, Freetype,
                   LibJpegTurbo, Libsamplerate, SpirvCross, Fftw, Libepoxy, Libdvdread, Libdvdnav}
            ==> r == Some(PcPath(Name(p)))
  {
    match p
    case Gettext => None
    case Glslang => None
    case SpirvTools => None
    case SpirvHeaders => None
    case Bzip2 => Some(["lib", "libbz2.a"])
    case Libiconv => Some(["lib", "libiconv.a"])
    case Libsoxr => Some(["lib", "libsoxr.a"])
    case Xz => Some(PcPath("liblzma"))
    case Freetype => Some(PcPath("freetype2"))
    case LibJpegTurbo => Some(PcPath("libjpeg"))
    case Libsamplerate => Some(PcPath("samplerate"))
    case SpirvCross => Some(PcPath("spirv-cross-c"))
    case Luajit => Some(PcPath("luajit"))
    case Ffnvcodec => Some(PcPath("ffnvcodec"))
    case Fftw => Some(PcPath("fftw3"))
    case Libepoxy => Some(PcPath("epoxy"))
    case Libdvdread => Some(PcPath("dvdread"))
    case Libdvdnav => Some(PcPath("dvdnav"))
    case _ => Some(PcPath(Name(p)))
  }

  // ---------------------------------------------------------------------
  // One rebuild

  /** The build commands of row `e`, with `{pre}` substituted in its flags. */
  function Commands(e: Entry, inp: Input, cfg: Config): seq<Cmd>
  {
    DispatchClang(Name(e.pkg), e.kind, SubstPre(inp.flags, Pre(cfg)), inp.tree, cfg.nproc)
  }

  /** The extra libraries the loop adds to every matching metadata file. */
  const LoopLibs := "-lstdc++ -lm -lpthread"

  /** The rubberband repair: add `-lstdc++` after `-lrubberband` unless the
      text already holds it. */
  function RubberbandFix(c: string): string
  {
    if Contains(c, "-lstdc++") then c else ReplaceAll(c, "-lrubberband", "-lrubberband -lstdc++")
  }

  /** The luajit repair: drop the Linux-only private libraries. */
  function LuajitFix(c: string): string
  {
    ReplaceAll(c, "Libs.private: -Wl,-E -lm -ldl", "Libs.private:")
  }

  /** The shaderc repair: link the combined static library. */
  function ShadercFix(c: string): string
  {
    if Contains(c, "-lshaderc_shared") then ReplaceAll(c, "-lshaderc_shared", "-lshaderc_combined") else c
  }

  /** Read, repair and write back the file `path` if it exists. */
  function EditFile(files: Files, path: Path, fix: string -> string): (r: Files)
    ensures r.Keys == files.Keys
    ensures forall q | q in files && q != path :: r[q] == files[q]
    ensures path in files ==> r[path] == fix(files[path])
  {
    if path in files then files[path := fix(files[path])] else files
  }

  /** The repairs inside the kind branches, right after the build: the
      rubberband and luajit metadata are edited, libarchive's overwritten.
      `reach` says whether the rubberband lookup, which goes through
      `pre`, finds the install directory. */
  function KindFixes(files: Files, e: Entry, cfg: Config, reach: bool): (r: Files)
    ensures files.Keys <= r.Keys <= files.Keys + {PcPath("libarchive")}
  {
    if e.pkg == Rubberband && e.kind == Some(Meson) then
      (if reach then EditFile(files, PcPath("rubberband"), RubberbandFix) else files)
    else if e.pkg == Libarchive && e.kind == Some(CMake) then files[PcPath("libarchive") := cfg.archivePc]
    else if e.kind == Some(LuaJit) then EditFile(files, PcPath("luajit"), LuajitFix)
    else files
  }

  /** `glob(os.path.join(pre, 'lib', 'pkgconfig', f'*{n}*.pc'))` finds `q`. */
  predicate PcOf(n: string, q: Path)
  {
    InDir(["lib", "pkgconfig"], q) && Matches(Infix(n, ".pc"), q[2])
  }

  /** The new text patch_pc gives the metadata file `q`. */
  function PatchFile(libs: string, ucrt64: string): (Path, string) -> string
  {
    (q: Path, c: string) => if |q| > 0 then PatchClang(q[|q| - 1], c, libs, ucrt64) else c
  }

  /** `fix` applied to every file of `hits`. */
  function PatchSet(files: Files, hits: set<Path>, fix: (Path, string) -> string): Files
  {
    map q | q in files :: if q in hits then fix(q, files[q]) else files[q]
  }

  /** What the glob for `n` finds. */
  function PcHits(files: Files, n: string): set<Path>
  {
    set q | q in files && PcOf(n, q)
  }

  /** patch_pc on every metadata file the glob for `n` finds. */
  function PatchMatching(files: Files, n: string, libs: string, ucrt64: string): (r: Files)
    ensures r.Keys == files.Keys
    ensures forall q | q in files && !PcOf(n, q) :: r[q] == files[q]
    ensures forall q | q in files && PcOf(n, q) :: r[q] == PatchClang(q[|q| - 1], files[q], libs, ucrt64)
  {
    PatchSet(files, PcHits(files, n), PatchFile(libs, ucrt64))
  }

  /** Patching one more file of the set. */
  lemma PatchSetAdd(files: Files, done: set<Path>, q: Path, fix: (Path, string) -> string)
    requires q in files && q !in done
    ensures PatchSet(files, done, fix)[q := fix(q, files[q])] == PatchSet(files, done + {q}, fix)
  {
  }

  /** The loop over the glob's hits, one repair (patch_pc) at a time. */
  method PatchSetLoop(files: Files, hits: set<Path>, fix: (Path, string) -> string) returns (r: Files)
    requires hits <= files.Keys
    ensures r == PatchSet(files, hits, fix)
  {
    var todo := hits;
    r := files;
    assert r == PatchSet(files, hits - todo, fix);
    while todo != {}
      invariant todo <= hits
      invariant r == PatchSet(files, hits - todo, fix)
      decreases todo
    {
      var q :| q in todo;
      PatchSetAdd(files, hits - todo, q, fix);
      r := r[q := fix(q, r[q])];
      assert hits - todo + {q} == hits - (todo - {q});
      todo := todo - {q};
    }
    assert hits - todo == hits;
  }

  /** The repairs after the marker: spirv-cross gets its complete static
      metadata file, shaderc's is pointed at the combined library. */
  function AfterMarker(files: Files, p: Pkg, cfg: Config): (r: Files)
    ensures files.Keys <= r.Keys <= files.Keys + {PcPath("spirv-cross-c-shared")}
    ensures forall q | q in files && |q| != 3 :: r[q] == files[q]
  {
    if p == SpirvCross then files[PcPath("spirv-cross-c-shared") := cfg.crossPc]
    else if p == Shaderc then EditFile(files, PcPath("shaderc"), ShadercFix)
    else files
  }

  /** The install tree after the deletions `jobs` of remove_pkg. */
  function Purged(files: Files, jobs: seq<Job>): (r: Files)
    ensures r.Keys <= files.Keys && forall q | q in r :: r[q] == files[q]
    ensures forall q | q in files && !HitBy(jobs, q) :: q in r
  {
    KeepOnly(files, Remaining(files.Keys, jobs))
  }

  /** The install tree after a successful rebuild of row `e` from the
      purged tree `files`: the install, the kind repairs, patch_pc on the
      glob's hits, the marker, the late repairs. `reach` says whether
      lookups through `pre` find the install directory. */
  function Built(e: Entry, inp: Input, cfg: Config, files: Files, reach: bool): (r: Files)
    ensures Marker(Name(e.pkg)) in r && r[Marker(Name(e.pkg))] == ""
    ensures r.Keys <= files.Keys + inp.installs.Keys + {Marker(Name(e.pkg)), PcPath("libarchive"), PcPath("spirv-cross-c-shared")}
  {
    var fixed := KindFixes(files + inp.installs, e, cfg, reach);
    var patched := if reach then PatchSet(fixed, PcHits(fixed, Name(e.pkg)), PatchFile(LoopLibs, cfg.ucrt64)) else fixed;
    AfterMarker(patched[Marker(Name(e.pkg)) := ""], e.pkg, cfg)
  }

  // ---------------------------------------------------------------------
  // The loop

  /** What one iteration needs to know about its row: the package, its
      name, its dependencies, its expected output, whether its source
      changed, the deletions of its remove_pkg, its build commands and their
      exit statuses, and what a successful rebuild does to the purged
      install tree. */
  datatype Row = Row(pkg: Pkg, name: string, deps: seq<Pkg>, expected: Option<Path>, changed: bool,
                     jobs: seq<Job>, cmds: seq<Cmd>, answers: seq<bool>, build: Files -> Files)

  /** The row of table entry `e` in this run. */
  function RowOf(e: Entry, inp: Input, cfg: Config): (r: Row)
    ensures r.pkg == e.pkg && r.name == Name(e.pkg) && r.deps == e.deps && r.changed == inp.changed
    ensures r.expected == Expected(e.pkg) && r.jobs == RemovePkgJobs(Clang, Name(e.pkg))
    ensures r.cmds == Commands(e, inp, cfg) && r.answers == inp.answers
  {
    Row(e.pkg, Name(e.pkg), e.deps, Expected(e.pkg), inp.changed, RemovePkgJobs(Clang, Name(e.pkg)),
        Commands(e, inp, cfg), inp.answers,
        f => Built(e, inp, cfg, f, true))
  }

  /** The integrity check: the marker of a row whose expected output is
      missing is deleted; nothing else is touched. */
  function CheckOutput(files: Files, r: Row): (c: Files)
    ensures c.Keys <= files.Keys && forall q | q in c :: c[q] == files[q]
    ensures files.Keys - c.Keys <= {Marker(r.name)}
    ensures Marker(r.name) in c <==> Marker(r.name) in files && (r.expected.None? || r.expected.value in files)
  {
    if r.expected.Some? && r.expected.value !in files && Marker(r.name) in files then files - {Marker(r.name)} else files
  }

  /** The rebuild condition: `--clean`, no marker, a changed source, or a
      dependency rebuilt earlier in this run. */
  predicate Rebuilds(clean: bool, files: Files, r: Row, updated: set<Pkg>)
  {
    clean || Marker(r.name) !in files || r.changed || exists d | d in r.deps :: d in updated
  }

  /** Whether row `r` is rebuilt from state `s`: the condition, taken after
      the integrity check. */
  predicate Stale(clean: bool, r: Row, s: State)
  {
    Rebuilds(clean, CheckOutput(s.files, r), r, s.updated)
  }

  /** One iteration of the package loop. A failing build command aborts the
      run with the package purged; a skip leaves everything as it was. */
  function Step(r: Row, clean: bool, s: State): (t: State)
    ensures s.aborted || !Stale(clean, r, s) ==> t == s
    ensures !s.aborted && Stale(clean, r, s) ==>
              t.aborted == !Succeeds(r.answers, |r.cmds|) &&
              t.updated == (if t.aborted then s.updated else s.updated + {r.pkg})
  {
    if s.aborted then s
    else
      var files := CheckOutput(s.files, r);
      if !Rebuilds(clean, files, r, s.updated) then s
      else if !Succeeds(r.answers, |r.cmds|) then State(Purged(files, r.jobs), s.updated, true)
      else State(r.build(Purged(files, r.jobs)), s.updated + {r.pkg}, false)
  }

  /** The state after the first `k` rows. */
  function Run(k: nat, rows: seq<Row>, clean: bool, s0: State): State
    requires k <= |rows|
  {
    if k == 0 then s0 else Step(rows[k - 1], clean, Run(k - 1, rows, clean, s0))
  }

  /** The rows of a table in this run. */
  function Rows(table: seq<Entry>, ins: seq<Input>, cfg: Config): (rows: seq<Row>)
    requires |table| == |ins|
    ensures |rows| == |table|
    ensures forall i | 0 <= i < |table| :: rows[i] == RowOf(table[i], ins[i], cfg)
  {
    seq(|table|, i requires 0 <= i < |table| => RowOf(table[i], ins[i], cfg))
  }

  /** The rebuild after a successful build, statement by statement. */
  method InstallAndRepair(e: Entry, inp: Input, cfg: Config, files: Files) returns (r: Files)
    ensures r == Built(e, inp, cfg, files, true)
  {
    r := KindFixes(files + inp.installs, e, cfg, true);
    r := PatchSetLoop(r, PcHits(r, Name(e.pkg)), PatchFile(LoopLibs, cfg.ucrt64));
    r := r[Marker(Name(e.pkg)) := ""];
    r := AfterMarker(r, e.pkg, cfg);
  }

  /** One iteration of the loop, statement by statement: the integrity
      check, the rebuild condition, remove_pkg, the build commands under
      mrun, and on success the install and its repairs. */
  method BuildRow(r: Row, clean: bool, s: State) returns (t: State)
    requires !s.aborted
    ensures t == Step(r, clean, s)
  {
    var files := s.files;
    var m := Marker(r.name);
    if r.expected.Some? && r.expected.value !in files && m in files {
      files := files - {m};
    }
    assert files == CheckOutput(s.files, r);
    var depChanged := exists d | d in r.deps :: d in s.updated;
    if !(clean || m !in files || r.changed || depChanged) {
      return s;
    }
    var keep := DeleteMatching(files.Keys, r.jobs);
    assert keep == Remaining(files.Keys, r.jobs);
    files := KeepOnly(files, keep);
    var ok, ran := MRun(r.cmds, Outcomes(r.answers, |r.cmds|));
    if !ok {
      return State(files, s.updated, true);
    }
    t := State(r.build(files), s.updated + {r.pkg}, false);
  }

  /** Once a build has failed, the remaining rows change nothing. */
  lemma {:induction false} AbortedStays(k: nat, k2: nat, rows: seq<Row>, clean: bool, s0: State)
    requires k <= k2 <= |rows|
    requires Run(k, rows, clean, s0).aborted
    ensures Run(k2, rows, clean, s0) == Run(k, rows, clean, s0)
    decreases k2
  {
    if k2 > k {
      AbortedStays(k, k2 - 1, rows, clean, s0);
    }
  }

  /** The package loop: every row in order, until a build fails. */
  method RunRows(rows: seq<Row>, clean: bool, files: Files) returns (s: State)
    ensures s == Run(|rows|, rows, clean, State(files, {}, false))
  {
    s := State(files, {}, false);
    var i := 0;
    while i < |rows| && !s.aborted
      invariant 0 <= i <= |rows|
      invariant s == Run(i, rows, clean, State(files, {}, false))
    {
      s := BuildRow(rows[i], clean, s);
      i := i + 1;
    }
    if s.aborted {
      AbortedStays(i, |rows|, rows, clean, State(files, {}, false));
    }
  }

  /** The package loop of build_v2_clang.py over its table. */
  method RunDeps(cfg: Config, ins: seq<Input>, files: Files) returns (s: State)
    requires |ins| == ClangCount
    ensures s == Run(ClangCount, Rows(ClangTable(), ins, cfg), cfg.clean, State(files, {}, false))
  {
    s := RunRows(Rows(ClangTable(), ins, cfg), cfg.clean, files);
  }

  // ---------------------------------------------------------------------
  // Properties of the loop

  /** A row is rebuilt exactly when `--clean` is given, its marker is
      missing, its marker is there but its expected output is not, its
      source changed, or one of its dependencies was rebuilt in this run. */
  lemma StaleWhen(clean: bool, r: Row, s: State)
    ensures Stale(clean, r, s) <==>
              clean || Marker(r.name) !in s.files || (r.expected.Some? && r.expected.value !in s.files) ||
              r.changed || exists d | d in r.deps :: d in s.updated
  {
  }

  /** The set of rebuilt packages only grows. */
  lemma {:induction false} UpdatedGrows(k: nat, k2: nat, rows: seq<Row>, clean: bool, s0: State)
    requires k <= k2 <= |rows|
    ensures Run(k, rows, clean, s0).updated <= Run(k2, rows, clean, s0).updated
    decreases k2
  {
    if k2 > k {
      UpdatedGrows(k, k2 - 1, rows, clean, s0);
    }
  }

  /** Only the packages of the rows run so far are ever added. */
  lemma {:induction false} UpdatedFromRows(k: nat, rows: seq<Row>, clean: bool, s0: State)
    requires k <= |rows|
    ensures forall p | p in Run(k, rows, clean, s0).updated :: p in s0.updated || exists i | 0 <= i < k :: rows[i].pkg == p
  {
    if k > 0 {
      UpdatedFromRows(k - 1, rows, clean, s0);
    }
  }

  /** A rebuild propagates: once row `j` was rebuilt, a later row that
      lists its package as a dependency is rebuilt too (unless the run has
      aborted by then). */
  lemma Propagates(j: nat, k: nat, rows: seq<Row>, clean: bool, s0: State)
    requires j < k < |rows|
    requires rows[j].pkg in Run(j + 1, rows, clean, s0).updated
    requires rows[j].pkg in rows[k].deps
    requires !Run(k, rows, clean, s0).aborted
    ensures Stale(clean, rows[k], Run(k, rows, clean, s0))
    ensures Run(k + 1, rows, clean, s0).aborted || rows[k].pkg in Run(k + 1, rows, clean, s0).updated
  {
    UpdatedGrows(j + 1, k, rows, clean, s0);
  }

  /** A successful rebuild always writes the marker. */
  ghost predicate Marks(r: Row)
  {
    forall f :: Marker(r.name) in r.build(f)
  }

  lemma RowOfMarks(e: Entry, inp: Input, cfg: Config)
    ensures Marks(RowOf(e, inp, cfg))
  {
  }

  /** A table entry without a build kind has no commands; when it is due
      it still counts as rebuilt and gets its marker. */
  lemma NoKindStillMarked(e: Entry, inp: Input, cfg: Config, clean: bool, s: State)
    requires e.kind.None? && !s.aborted && Stale(clean, RowOf(e, inp, cfg), s)
    ensures !Step(RowOf(e, inp, cfg), clean, s).aborted
    ensures e.pkg in Step(RowOf(e, inp, cfg), clean, s).updated
    ensures Marker(Name(e.pkg)) in Step(RowOf(e, inp, cfg), clean, s).files
  {
    var r := RowOf(e, inp, cfg);
    assert r.cmds == [];
    RowOfMarks(e, inp, cfg);
    assert Marker(r.name) in r.build(Purged(CheckOutput(s.files, r), r.jobs));
  }

  /** After a successful rebuild of row `k` its marker is in the tree. */
  lemma RebuiltIsMarked(k: nat, rows: seq<Row>, clean: bool, s0: State)
    requires k < |rows| && Marks(rows[k])
    requires rows[k].pkg !in Run(k, rows, clean, s0).updated
    requires rows[k].pkg in Run(k + 1, rows, clean, s0).updated
    ensures !Run(k + 1, rows, clean, s0).aborted
    ensures Marker(rows[k].name) in Run(k + 1, rows, clean, s0).files
  {
  }

  /** Every row's marker and expected output is in `files`. */
  predicate Settled(rows: seq<Row>, files: Files)
  {
    forall i | 0 <= i < |rows| :: Marker(rows[i].name) in files &&
                                 (rows[i].expected.None? || rows[i].expected.value in files)
  }

  /** A quiet run: without `--clean`, with no source changed and every
      marker and expected output in place, the loop rebuilds nothing and
      leaves the tree as it was. */
  lemma {:induction false} QuietRun(k: nat, rows: seq<Row>, s0: State)
    requires k <= |rows|
    requires !s0.aborted && s0.updated == {}
    requires forall i | 0 <= i < |rows| :: !rows[i].changed
    requires Settled(rows, s0.files)
    ensures Run(k, rows, false, s0) == s0
  {
    if k > 0 {
      QuietRun(k - 1, rows, s0);
      var r := rows[k - 1];
      assert CheckOutput(s0.files, r) == s0.files;
    }
  }

  /** An aborted run has a cause: a row that was due, whose build command
      failed, and after which nothing changed. */
  lemma {:induction false} AbortCause(k: nat, rows: seq<Row>, clean: bool, s0: State)
    requires k <= |rows| && !s0.aborted
    requires Run(k, rows, clean, s0).aborted
    ensures exists j | 0 <= j < k :: !Run(j, rows, clean, s0).aborted && Stale(clean, rows[j], Run(j, rows, clean, s0)) &&
                                     !Succeeds(rows[j].answers, |rows[j].cmds|) &&
                                     Run(k, rows, clean, s0) == Run(j + 1, rows, clean, s0)
  {
    if Run(k - 1, rows, clean, s0).aborted {
      AbortCause(k - 1, rows, clean, s0);
    } else {
      assert Stale(clean, rows[k - 1], Run(k - 1, rows, clean, s0));
    }
  }

  /** What a successful rebuild of `r` may add to the tree: at most `extra`. */
  ghost predicate AddsAtMost(r: Row, extra: set<Path>)
  {
    forall f :: r.build(f).Keys <= f.Keys + extra
  }

  lemma RowOfAdds(e: Entry, inp: Input, cfg: Config)
    ensures AddsAtMost(RowOf(e, inp, cfg), inp.installs.Keys + {Marker(Name(e.pkg)), PcPath("libarchive"), PcPath("spirv-cross-c-shared")})
  {
  }

  /** A file that is absent stays absent through a row that does not
      abort, unless that row's rebuild may add it. */
  lemma StaysAbsent(r: Row, clean: bool, s: State, q: Path, extra: set<Path>)
    requires q !in s.files && AddsAtMost(r, extra) && q !in extra
    requires !Step(r, clean, s).aborted
    ensures q !in Step(r, clean, s).files
  {
    if !s.aborted && Stale(clean, r, s) {
      var f := Purged(CheckOutput(s.files, r), r.jobs);
      assert Step(r, clean, s).files == r.build(f);
    }
  }

  // ---------------------------------------------------------------------
  // Properties of the table of build_v2_clang.py

  /** The rows of this run of build_v2_clang.py. */
  function ClangRows(cfg: Config, ins: seq<Input>): (rows: seq<Row>)
    requires |ins| == ClangCount
    ensures |rows| == ClangCount
  {
    Rows(ClangTable(), ins, cfg)
  }

  /** A file that row `j` purges, that neither its rebuild nor row
      `j + 1`'s may add back, is missing two rows later; a row that expects
      it is then rebuilt. */
  lemma {:induction false} PurgedOutputForcesRebuild(j: nat, rows: seq<Row>, clean: bool, s0: State, q: Path, x1: set<Path>, x2: set<Path>)
    requires j + 2 < |rows|
    requires HitBy(rows[j].jobs, q)
    requires AddsAtMost(rows[j], x1) && q !in x1 && AddsAtMost(rows[j + 1], x2) && q !in x2
    requires rows[j].pkg !in Run(j, rows, clean, s0).updated
    requires rows[j].pkg in Run(j + 1, rows, clean, s0).updated
    requires !Run(j + 2, rows, clean, s0).aborted
    requires rows[j + 2].expected == Some(q)
    ensures Stale(clean, rows[j + 2], Run(j + 2, rows, clean, s0))
  {
    var s := Run(j, rows, clean, s0);
    var f := Purged(CheckOutput(s.files, rows[j]), rows[j].jobs);
    assert q !in f;
    assert Run(j + 1, rows, clean, s0).files == rows[j].build(f);
    StaysAbsent(rows[j + 1], clean, Run(j + 1, rows, clean, s0), q, x2);
  }

  /** zlib's purge deletes zimg's metadata file. */
  lemma ZlibJobsHitZimgPc()
    ensures HitBy(RemovePkgJobs(Clang, "zlib"), PcPath("zimg"))
  {
    var z := "zimg" + ".pc";
    assert z[0] == 'z' && z[1] == 'i' && z[2] == 'm' && z[3] == 'g' && z[4] == '.' && z[5] == 'p' && z[6] == 'c';
    assert z == "zimg.pc";
    ZlibPurgesZimgPc(Clang, {PcPath("zimg")});
  }

  /** In the table, zlib (row 3) comes two rows before zimg (row 5), which
      does not depend on it but expects `lib/pkgconfig/zimg.pc`, a file
      zlib's remove_pkg deletes with its `*z*.pc`. With
      PurgedOutputForcesRebuild: a successful zlib rebuild makes zimg's
      check fail, so zimg is rebuilt in the same run unless an install in
      between puts the file back. */
  lemma ZlibPurgeReachesZimg()
    ensures ClangAt(3).pkg == Zlib && ClangAt(5).pkg == Zimg && Zlib !in ClangAt(5).deps
    ensures Expected(ClangAt(5).pkg) == Some(PcPath("zimg"))
    ensures HitBy(RemovePkgJobs(Clang, Name(ClangAt(3).pkg)), PcPath("zimg"))
  {
    ZlibJobsHitZimgPc();
  }

  // ---------------------------------------------------------------------
  // Native lookups through `pre`

  /** Whether a native (Windows) file operation on `p` reaches the
      directory `root`: Windows paths compare without regard to ASCII case
      or to the kind of separator. */
  predicate SameDir(p: string, root: string)
  {
    Fold(Slashes(p)) == Fold(Slashes(root))
  }

  /** `pre` is the MSYS2 form `/c/...` of a drive path `C:\...`; handed to
      a native file operation it names a different directory. */
  lemma PreMissesDriveRoot(root: string)
    requires |root| >= 2 && root[1] == ':' && ('A' <= root[0] <= 'Z' || 'a' <= root[0] <= 'z')
    ensures !SameDir(ToUnix(root), root)
  {
    assert Fold(Slashes(ToUnix(root)))[0] == '/';
    assert Fold(Slashes(root))[0] == Lower(root[0]);
  }

  /** A lower-case name not starting with a dot is found by its own glob
      `*{n}*.pc` in `lib/pkgconfig`. */
  lemma OwnPcFound(n: string)
    requires |n| > 0 && n[0] != '.' && forall k | 0 <= k < |n| :: !('A' <= n[k] <= 'Z')
    ensures PcOf(n, PcPath(n))
  {
    var name := n + ".pc";
    FoldNoUpper(n);
    FoldNoUpper(".pc");
    FoldNoUpper(name);
    assert name[..|n|] == n;
    assert OccursAt(n, name, 0);
    assert name[|name| - 3..] == ".pc";
    assert PcPath(n)[..2] == ["lib", "pkgconfig"];
  }

  /** What a successful rebuild leaves in a file other than the marker,
      for a package without late repairs: the file after the kind repairs,
      then patch_pc if the glob (when it reaches the tree) finds it. */
  lemma BuiltFile(e: Entry, inp: Input, cfg: Config, files: Files, reach: bool, q: Path)
    requires q in files || q in inp.installs
    requires q != Marker(Name(e.pkg)) && e.pkg != SpirvCross && e.pkg != Shaderc
    ensures var fixed := KindFixes(files + inp.installs, e, cfg, reach);
            q in fixed &&
            Built(e, inp, cfg, files, reach)[q] ==
              if reach && PcOf(Name(e.pkg), q) then PatchClang(q[|q| - 1], fixed[q], LoopLibs, cfg.ucrt64) else fixed[q]
  {
  }

  /** The rubberband repair is the only kind repair of the rubberband row. */
  lemma RubberbandKindFix(e: Entry, inp: Input, cfg: Config, files: Files, reach: bool)
    requires e.pkg == Rubberband && e.kind == Some(Meson) && PcPath("rubberband") in inp.installs
    ensures KindFixes(files + inp.installs, e, cfg, reach)[PcPath("rubberband")] ==
            if reach then RubberbandFix(inp.installs[PcPath("rubberband")]) else inp.installs[PcPath("rubberband")]
  {
  }

  /** As written: with the install directory on a drive, the rubberband
      repair and the patch_pc glob look under `pre` and find nothing, so the
      installed rubberband.pc is left exactly as the install wrote it. */
  lemma RubberbandUnpatchedAsWritten(e: Entry, inp: Input, cfg: Config, files: Files)
    requires e.pkg == Rubberband && e.kind == Some(Meson) && PcPath("rubberband") in inp.installs
    requires |cfg.root| >= 2 && cfg.root[1] == ':' && ('A' <= cfg.root[0] <= 'Z' || 'a' <= cfg.root[0] <= 'z')
    ensures Built(e, inp, cfg, files, SameDir(Pre(cfg), cfg.root))[PcPath("rubberband")] == inp.installs[PcPath("rubberband")]
  {
    PreMissesDriveRoot(cfg.root);
    RubberbandKindFix(e, inp, cfg, files, false);
    BuiltFile(e, inp, cfg, files, false, PcPath("rubberband"));
  }

  lemma RubberbandPcName()
    ensures PcPath("rubberband")[2] == "rubberband.pc"
  {
    var z := "rubberband" + ".pc";
    assert z[..10] == "rubberband" && z[10..] == ".pc";
    assert z == "rubberband.pc";
  }

  /** Corrected (the lookups go through the native install directory, as
      the spirv-cross, shaderc and libarchive repairs already do): the
      rubberband.pc is given `-lstdc++` by its repair and then patch_pc. */
  lemma RubberbandRepaired(e: Entry, inp: Input, cfg: Config, files: Files)
    requires e.pkg == Rubberband && e.kind == Some(Meson) && PcPath("rubberband") in inp.installs
    ensures Built(e, inp, cfg, files, true)[PcPath("rubberband")] ==
            PatchClang("rubberband.pc", RubberbandFix(inp.installs[PcPath("rubberband")]), LoopLibs, cfg.ucrt64)
  {
    RubberbandKindFix(e, inp, cfg, files, true);
    RubberbandPcName();
    OwnPcFound("rubberband");
    BuiltFile(e, inp, cfg, files, true, PcPath("rubberband"));
  }

  // ---------------------------------------------------------------------
  // ffmpeg, mpv and the binary cleanup

  /** What the end of the script learns from outside: whether the ffmpeg
      and mpv sources changed, whether their build commands succeed, what
      their installs write, and `--force-mpv`. */
  datatype Final = Final(fChanged: bool, fOk: bool, fInstalls: Files,
                         mChanged: bool, mOk: bool, mInstalls: Files, forceMpv: bool)

  /** ffmpeg is rebuilt on `--clean`, a missing marker, a changed source, or
      any package rebuilt by the loop. */
  predicate FfmpegDue(clean: bool, files: Files, fin: Final, updated: set<Pkg>)
  {
    clean || Marker("ffmpeg") !in files || fin.fChanged || updated != {}
  }

  /** mpv is rebuilt on `--clean`, a missing marker, a changed mpv source,
      any package rebuilt by the loop, or `--force-mpv`. */
  predicate MpvDue(clean: bool, files: Files, fin: Final, updated: set<Pkg>)
  {
    clean || Marker("mpv") !in files || fin.mChanged || updated != {} || fin.forceMpv
  }

  /** One final build: a failing command ends the script; otherwise the
      install and then the marker. */
  function Final1(due: bool, ok: bool, installs: Files, marker: Path, s: State): (t: State)
    ensures !due ==> t == s
    ensures due && ok ==> !t.aborted && marker in t.files && t.files.Keys == s.files.Keys + installs.Keys + {marker}
  {
    if !due then s
    else if !ok then State(s.files, s.updated, true)
    else State((s.files + installs)[marker := ""], s.updated, false)
  }

  /** The end of the script: ffmpeg, mpv, then the cleanup of `bin`. */
  function Tail(clean: bool, s: State, fin: Final): (t: State)
    ensures s.aborted ==> t == s
    ensures !t.aborted ==> forall p | p in t.files && Below(["bin"], p) :: p[1] in ClangBinKeep
    ensures t.updated == s.updated
  {
    if s.aborted then s
    else
      var s1 := Final1(FfmpegDue(clean, s.files, fin, s.updated), fin.fOk, fin.fInstalls, Marker("ffmpeg"), s);
      if s1.aborted then s1
      else
        var s2 := Final1(MpvDue(clean, s1.files, fin, s1.updated), fin.mOk, fin.mInstalls, Marker("mpv"), s1);
        if s2.aborted then s2
        else State(KeepOnly(s2.files, CleanBinClang(s2.files.Keys)), s2.updated, false)
  }

  /** A whole run of build_v2_clang.py from the install tree `files0`:
      `--clean` starts from an empty tree, then the package loop, then the
      end of the script. */
  function Whole(cfg: Config, ins: seq<Input>, fin: Final, files0: Files): State
    requires |ins| == ClangCount
  {
    var start := if cfg.clean then map[] else files0;
    Tail(cfg.clean, Run(ClangCount, ClangRows(cfg, ins), cfg.clean, State(start, {}, false)), fin)
  }

  /** The whole run, statement by statement. */
  method BuildAll(cfg: Config, ins: seq<Input>, fin: Final, files0: Files) returns (s: State)
    requires |ins| == ClangCount
    ensures s == Whole(cfg, ins, fin, files0)
  {
    var start := files0;
    if cfg.clean {
      start := map[];
    }
    s := RunDeps(cfg, ins, start);
    if s.aborted {
      return;
    }
    if FfmpegDue(cfg.clean, s.files, fin, s.updated) {
      if !fin.fOk {
        return State(s.files, s.updated, true);
      }
      s := State((s.files + fin.fInstalls)[Marker("ffmpeg") := ""], s.updated, false);
    }
    if MpvDue(cfg.clean, s.files, fin, s.updated) {
      if !fin.mOk {
        return State(s.files, s.updated, true);
      }
      s := State((s.files + fin.mInstalls)[Marker("mpv") := ""], s.updated, false);
    }
    var keep := CleanBinClang(s.files.Keys);
    s := State(KeepOnly(s.files, keep), s.updated, false);
  }

  /** A change to the ffmpeg source alone rebuilds ffmpeg but not mpv,
      which links it statically. */
  lemma FfmpegChangeSkipsMpv(s: State, fin: Final)
    requires !s.aborted && s.updated == {} && fin.fOk
    requires Marker("ffmpeg") in s.files && Marker("mpv") in s.files
    requires fin.fChanged && !fin.mChanged && !fin.forceMpv
    ensures FfmpegDue(false, s.files, fin, s.updated)
    ensures var f := (s.files + fin.fInstalls)[Marker("ffmpeg") := ""];
            Tail(false, s, fin) == State(KeepOnly(f, CleanBinClang(f.Keys)), {}, false)
  {
  }

  /** Any package rebuilt by the loop rebuilds both ffmpeg and mpv. */
  lemma LoopRebuildReachesFinals(clean: bool, s: State, fin: Final)
    requires !s.aborted && s.updated != {}
    ensures FfmpegDue(clean, s.files, fin, s.updated)
    ensures var s1 := Final1(true, fin.fOk, fin.fInstalls, Marker("ffmpeg"), s);
            !s1.aborted ==> MpvDue(clean, s1.files, fin, s1.updated)
  {
  }

  /** A quiet run: without `--clean`, with no source changed, every marker
      (ffmpeg's and mpv's too) and every expected output in place, a whole
      run builds nothing and only cleans `bin`. */
  lemma QuietWhole(cfg: Config, ins: seq<Input>, fin: Final, files0: Files)
    requires |ins| == ClangCount && !cfg.clean
    requires forall i | 0 <= i < ClangCount :: !ClangRows(cfg, ins)[i].changed
    requires Settled(ClangRows(cfg, ins), files0)
    requires Marker("ffmpeg") in files0 && Marker("mpv") in files0
    requires !fin.fChanged && !fin.mChanged && !fin.forceMpv
    ensures Whole(cfg, ins, fin, files0) == State(KeepOnly(files0, CleanBinClang(files0.Keys)), {}, false)
  {
    QuietRun(ClangCount, ClangRows(cfg, ins), State(files0, {}, false));
  }
}
