/** Artifact purge rules over the install tree. The install tree is the set of
    paths, relative to the install prefix, of the files under it; a path is
    the list of its components (`["lib", "libz.a"]`,
    `["lib", "pkgconfig", "zlib.pc"]`, `[".built_zlib"]`, `["bin", "mpv.exe"]`).
    A directory exists when some file lies below it. */
module Purge {
  import opened Text
  import opened Glob

  /** A relative path, component by component. */
  type Path = seq<string>

  /** Which of the two build scripts a definition follows:
      `Clang` is build_v2_clang.py, `Legacy` is build.py. */
  datatype Variant = Clang | Legacy

  /** One `glob(os.path.join(dir, pat))` whose hits are deleted. */
  datatype Job = Job(dir: Path, pat: Pattern)

  /** `p` lies somewhere below directory `d`. */
  predicate Below(d: Path, p: Path)
  {
    |p| > |d| && p[..|d|] == d
  }

  /** `p` is a file directly inside directory `d`. */
  predicate InDir(d: Path, p: Path)
  {
    |p| == |d| + 1 && p[..|d|] == d
  }

  /** The glob of `job` returns the file `p`. */
  predicate Hits(job: Job, p: Path)
  {
    InDir(job.dir, p) && Matches(job.pat, p[|job.dir|])
  }

  /** Some job of the list returns `p`. */
  predicate HitBy(jobs: seq<Job>, p: Path)
    decreases |jobs|
  {
    |jobs| > 0 && (Hits(jobs[0], p) || HitBy(jobs[1..], p))
  }

  /** What is left of `tree` once every file some job returns is deleted. */
  function Remaining(tree: set<Path>, jobs: seq<Job>): set<Path>
  {
    set p | p in tree && !HitBy(jobs, p)
  }

  /** A list of jobs hits what either of its halves hits. */
  lemma {:induction false} HitByConcat(a: seq<Job>, b: seq<Job>, p: Path)
    ensures HitBy(a + b, p) <==> HitBy(a, p) || HitBy(b, p)
    decreases |a|
  {
    if |a| == 0 {
      assert a + b == b;
    } else {
      assert (a + b)[0] == a[0] && (a + b)[1..] == a[1..] + b;
      HitByConcat(a[1..], b, p);
    }
  }

  /** The first `i + 1` jobs hit what the first `i` or job `i` hits. */
  lemma HitBySnoc(jobs: seq<Job>, i: nat, p: Path)
    requires i < |jobs|
    ensures HitBy(jobs[..i + 1], p) <==> HitBy(jobs[..i], p) || Hits(jobs[i], p)
  {
    assert jobs[..i + 1] == jobs[..i] + [jobs[i]];
    HitByConcat(jobs[..i], [jobs[i]], p);
    assert [jobs[i]][1..] == [];
  }

  /** The loops `for pat in ...: for f in glob(...): os.remove(f)`: each job
      deletes what its glob returns in the current tree, one after the other.
      Removal errors are swallowed by the source and cannot occur here. */
  method DeleteMatching(tree: set<Path>, jobs: seq<Job>) returns (t: set<Path>)
    ensures t <= tree
    ensures forall p :: p in tree ==> (p in t <==> !HitBy(jobs, p))
  {
    t := tree;
    var i := 0;
    while i < |jobs|
      invariant 0 <= i <= |jobs|
      invariant t <= tree
      invariant forall p :: p in tree ==> (p in t <==> !HitBy(jobs[..i], p))
    {
      var hit := set p | p in t && Hits(jobs[i], p);
      forall p | p in tree
        ensures HitBy(jobs[..i + 1], p) <==> HitBy(jobs[..i], p) || Hits(jobs[i], p)
      {
        HitBySnoc(jobs, i, p);
      }
      t := t - hit;
      i := i + 1;
    }
    assert jobs[..|jobs|] == jobs;
  }

  /** One job per pattern, all in directory `d`. */
  function PatJobs(d: Path, pats: seq<Pattern>): (r: seq<Job>)
    ensures |r| == |pats|
    ensures forall k :: 0 <= k < |pats| ==> r[k] == Job(d, pats[k])
  {
    if |pats| == 0 then [] else [Job(d, pats[0])] + PatJobs(d, pats[1..])
  }

  /** Some pattern of the list matches `name`. */
  predicate AnyMatch(pats: seq<Pattern>, name: string)
    decreases |pats|
  {
    |pats| > 0 && (Matches(pats[0], name) || AnyMatch(pats[1..], name))
  }

  /** Pattern `k` matching makes the list match. */
  lemma {:induction false} AnyMatchIndex(pats: seq<Pattern>, k: nat, name: string)
    requires k < |pats| && Matches(pats[k], name)
    ensures AnyMatch(pats, name)
    decreases k
  {
    if k > 0 {
      assert pats[1..][k - 1] == pats[k];
      AnyMatchIndex(pats[1..], k - 1, name);
    }
  }

  /** The jobs of one directory hit exactly its files some pattern matches. */
  lemma {:induction false} PatJobsHit(d: Path, pats: seq<Pattern>, p: Path)
    ensures HitBy(PatJobs(d, pats), p) <==> InDir(d, p) && AnyMatch(pats, p[|d|])
    decreases |pats|
  {
    if |pats| > 0 {
      var r := PatJobs(d, pats);
      assert r[0] == Job(d, pats[0]) && r[1..] == PatJobs(d, pats[1..]);
      PatJobsHit(d, pats[1..], p);
    }
  }

  // -----------------------------------------------------------------------
  // remove_pkg

  /** `ln = lib_map.get(n, n)` of remove_pkg: the installed library base
      name of package `n`, the entries in the source's order, `n` itself when
      it has none. build_v2_clang.py adds the disc and archive libraries. */
  function LibAlias(v: Variant, n: string): string
  {
    if n == "bzip2" then "bz2"
    else if n == "gettext" then "intl"
    else if n == "xz" then "lzma"
    else if n == "freetype" then "freetype"
    else if n == "harfbuzz" then "harfbuzz"
    else if n == "fribidi" then "fribidi"
    else if n == "libiconv" then "iconv"
    else if n == "spirv-headers" then "SPIRV-Headers"
    else if n == "spirv-tools" then "SPIRV-Tools"
    else if n == "spirv-cross" then "spirv-cross"
    else if n == "glslang" then "glslang"
    else if n == "shaderc" then "shaderc"
    else if n == "lcms2" then "lcms2"
    else if n == "libepoxy" then "epoxy"
    else if n == "zimg" then "zimg"
    else if n == "libass" then "ass"
    else if n == "fontconfig" then "fontconfig"
    else if n == "zlib" then "z"
    else if n == "libpng" then "png"
    else if n == "libjpeg-turbo" then "jpeg"
    else if n == "luajit" then "luajit"
    else if n == "ffnvcodec" then "ffnvcodec"
    else if n == "uchardet" then "uchardet"
    else if n == "libsoxr" then "soxr"
    else if n == "fftw" then "fftw3"
    else if n == "libsamplerate" then "samplerate"
    else if n == "rubberband" then "rubberband"
    else if v == Clang && n == "libdvdcss" then "dvdcss"
    else if v == Clang && n == "libdvdread" then "dvdread"
    else if v == Clang && n == "libdvdnav" then "dvdnav"
    else if v == Clang && n == "libbluray" then "bluray"
    else if v == Clang && n == "libarchive" then "archive"
    else n
  }
  /** The package-specific archive patterns added to `search_patterns`. */
  function ExtraArchivePatterns(n: string): seq<Pattern>
  {
    if n == "shaderc" then [Wrap("libshaderc", ".a")]
    else if n == "glslang" then
      [Literal("libGenericCodeGen.a"), Literal("libMachineIndependent.a"), Literal("libOGLCompiler.a"),
       Literal("libOSDependent.a"), Literal("libHLSL.a")]
    else if n == "spirv-tools" then [Wrap("libSPIRV-Tools", ".a")]
    else if n == "spirv-cross" then [Wrap("libspirv-cross", ".a")]
    else if n == "libjpeg-turbo" then [Literal("libturbojpeg.a"), Literal("libjpeg.a")]
    else []
  }

  /** `search_patterns`: `lib{ln}*.a`, `{ln}*.a`, then the extras. */
  function ArchivePatterns(v: Variant, n: string): seq<Pattern>
  {
    var ln := LibAlias(v, n);
    [Wrap("lib" + ln, ".a"), Wrap(ln, ".a")] + ExtraArchivePatterns(n)
  }

  /** The patterns globbed in `pkgconfig`: `*{ln}*.pc`, then, in build.py
      alone and for spirv-cross alone, the alias `spirv-cross-c-shared.pc`. */
  function PcPatterns(v: Variant, n: string): seq<Pattern>
  {
    [Infix(LibAlias(v, n), ".pc")]
    + (if v == Legacy && n == "spirv-cross" then [Literal("spirv-cross-c-shared.pc")] else [])
  }

  /** The deletions of one `lib_dir`: archives in `d`, then metadata in `d/pkgconfig`. */
  function DirJobs(d: string, pats: seq<Pattern>, pcs: seq<Pattern>): seq<Job>
  {
    PatJobs([d], pats) + PatJobs([d, "pkgconfig"], pcs)
  }

  /** The deletions of remove_pkg for the given pattern lists, `lib` first,
      then `lib64`. The source's `if not os.path.exists(p): continue` is
      subsumed: a directory with no file below it yields no glob hits. */
  function PkgJobs(pats: seq<Pattern>, pcs: seq<Pattern>): seq<Job>
  {
    DirJobs("lib", pats, pcs) + DirJobs("lib64", pats, pcs)
  }

  /** Every deletion remove_pkg(n) performs. */
  function RemovePkgJobs(v: Variant, n: string): seq<Job>
  {
    PkgJobs(ArchivePatterns(v, n), PcPatterns(v, n))
  }

  /** What remove_pkg deletes below `lib_dir` `d`, file by file: a matching
      archive directly in `d`, or a matching metadata file directly in
      `d/pkgconfig`. */
  predicate DirHit(d: string, pats: seq<Pattern>, pcs: seq<Pattern>, p: Path)
  {
    (InDir([d], p) && AnyMatch(pats, p[1])) ||
    (InDir([d, "pkgconfig"], p) && AnyMatch(pcs, p[2]))
  }

  /** remove_pkg deletes a file exactly when `DirHit` holds for `lib` or `lib64`. */
  lemma PkgJobsHit(pats: seq<Pattern>, pcs: seq<Pattern>, p: Path)
    ensures HitBy(PkgJobs(pats, pcs), p) <==>
      DirHit("lib", pats, pcs, p) || DirHit("lib64", pats, pcs, p)
  {
    HitByConcat(DirJobs("lib", pats, pcs), DirJobs("lib64", pats, pcs), p);
    HitByConcat(PatJobs(["lib"], pats), PatJobs(["lib", "pkgconfig"], pcs), p);
    HitByConcat(PatJobs(["lib64"], pats), PatJobs(["lib64", "pkgconfig"], pcs), p);
    PatJobsHit(["lib"], pats, p);
    PatJobsHit(["lib", "pkgconfig"], pcs, p);
    PatJobsHit(["lib64"], pats, p);
    PatJobsHit(["lib64", "pkgconfig"], pcs, p);
  }

  /** remove_pkg(n) on the install tree. */
  method RemovePkg(v: Variant, n: string, tree: set<Path>) returns (t: set<Path>)
    ensures t == Remaining(tree, RemovePkgJobs(v, n))
  {
    t := DeleteMatching(tree, RemovePkgJobs(v, n));
  }

  /** remove_pkg never touches a file outside `lib` and `lib64`: markers,
      headers, binaries and everything else survive. */
  lemma RemovePkgKeepsOutsideLib(pats: seq<Pattern>, pcs: seq<Pattern>, tree: set<Path>, p: Path)
    requires p in tree && !Below(["lib"], p) && !Below(["lib64"], p)
    ensures p in Remaining(tree, PkgJobs(pats, pcs))
  {
    PkgJobsHit(pats, pcs, p);
    if |p| == 3 {
      assert p[..1] == p[..2][..1];
    }
  }

  /** A file directly in `lib` is deleted exactly when an archive pattern matches its name. */
  lemma LibFileHits(pats: seq<Pattern>, pcs: seq<Pattern>, name: string)
    ensures HitBy(PkgJobs(pats, pcs), ["lib", name]) <==> AnyMatch(pats, name)
  {
    PkgJobsHit(pats, pcs, ["lib", name]);
    assert ["lib", name][..1] == ["lib"];
  }

  /** Some pattern of a two-element list matches exactly when one of the two does. */
  lemma AnyMatchPair(a: Pattern, b: Pattern, name: string)
    ensures AnyMatch([a, b], name) <==> Matches(a, name) || Matches(b, name)
  {
    assert [a, b][1..] == [b] && [b][1..] == [];
    assert AnyMatch([b], name) <==> Matches(b, name);
  }

  /** For a package without extra patterns, remove_pkg deletes exactly the
      archives in `lib` whose name, ignoring case, starts with `lib{ln}` or
      `{ln}` and ends with `.a` after it, dot-files excepted. */
  lemma RemovePkgArchives(v: Variant, n: string, tree: set<Path>, name: string)
    requires ExtraArchivePatterns(n) == [] && |LibAlias(v, n)| > 0 && LibAlias(v, n)[0] != '.'
    requires ["lib", name] in tree
    ensures var ln := Fold(LibAlias(v, n)); var f := Fold(name);
      ["lib", name] !in Remaining(tree, RemovePkgJobs(v, n)) <==>
        (|name| > 0 && name[0] != '.') && IsSuffix(".a", f) &&
        ((|f| >= |ln| + 5 && IsPrefix("lib" + ln, f)) || (|f| >= |ln| + 2 && IsPrefix(ln, f)))
  {
    var ln0 := LibAlias(v, n);
    var a := Wrap("lib" + ln0, ".a");
    var b := Wrap(ln0, ".a");
    assert ArchivePatterns(v, n) == [a, b];
    LibFileHits(ArchivePatterns(v, n), PcPatterns(v, n), name);
    AnyMatchPair(a, b, name);
    FoldConcat("lib", ln0);
    assert Fold("lib") == "lib" && Fold(".a") == ".a";
    assert PatText(a)[0] == 'l' && PatText(b)[0] == ln0[0];
  }

  /** zlib's library name is `z`. */
  lemma ZlibAlias(v: Variant)
    ensures LibAlias(v, "zlib") == "z"
  {
  }

  /** A file directly in `lib/pkgconfig` is deleted exactly when a metadata pattern matches its name. */
  lemma PcFileHits(pats: seq<Pattern>, pcs: seq<Pattern>, name: string)
    ensures HitBy(PkgJobs(pats, pcs), ["lib", "pkgconfig", name]) <==> AnyMatch(pcs, name)
  {
    var p := ["lib", "pkgconfig", name];
    PkgJobsHit(pats, pcs, p);
    assert p[..2] == ["lib", "pkgconfig"] && p[..1] == ["lib"];
  }

  /** `*z*.pc` matches `zimg.pc`. */
  lemma InfixZMatchesZimg()
    ensures Matches(Infix("z", ".pc"), "zimg.pc")
  {
    FoldNoUpper("zimg.pc");
    FoldNoUpper("z");
    FoldNoUpper(".pc");
    assert OccursAt("z", "zimg.pc", 0);
  }

  /** With `ln = 'z'`, zlib's `*z*.pc` also deletes other packages' metadata,
      such as zimg's. */
  lemma ZlibPurgesZimgPc(v: Variant, tree: set<Path>)
    requires ["lib", "pkgconfig", "zimg.pc"] in tree
    ensures ["lib", "pkgconfig", "zimg.pc"] !in Remaining(tree, RemovePkgJobs(v, "zlib"))
  {
    ZlibAlias(v);
    var pcs := PcPatterns(v, "zlib");
    assert pcs[0] == Infix("z", ".pc");
    PcFileHits(ArchivePatterns(v, "zlib"), pcs, "zimg.pc");
    InfixZMatchesZimg();
    AnyMatchIndex(pcs, 0, "zimg.pc");
  }

  // -----------------------------------------------------------------------
  // clean_libs (build.py; the build_v2_clang.py version is never called)

  /** The import-library and libtool patterns `*.dll.a`, `*.dll`, `*.la`
      swept in `lib` and `lib64`. */
  const ImportPatterns: seq<Pattern> := [Wrap("", ".dll.a"), Wrap("", ".dll"), Wrap("", ".la")]

  /** The "aggressive targets" removed from `lib` by name. `os.path.exists`
      on Windows ignores case, which is what a glob of the literal name does. */
  const AggressiveTargets: seq<Pattern> :=
    [Literal("libz.dll.a"), Literal("libstdc++.dll.a"), Literal("libgcc_s.dll.a"),
     Literal("libz.a"), Literal("libzlibstatic.a")]

  /** `clean_libs` of build.py: the import patterns in `lib` and `lib64`,
      then the aggressive targets in `lib`. */
  function CleanLibsJobs(): seq<Job>
  {
    PatJobs(["lib"], ImportPatterns) + PatJobs(["lib64"], ImportPatterns) + PatJobs(["lib"], AggressiveTargets)
  }

  /** clean_libs() of build.py on the install tree. */
  method CleanLibs(tree: set<Path>) returns (t: set<Path>)
    ensures t == Remaining(tree, CleanLibsJobs())
  {
    t := DeleteMatching(tree, CleanLibsJobs());
  }

  /** clean_libs deletes exactly the files directly in `lib` some import
      pattern or aggressive target matches, and the files directly in `lib64`
      some import pattern matches. */
  lemma CleanLibsHit(p: Path)
    ensures HitBy(CleanLibsJobs(), p) <==>
      (InDir(["lib"], p) && (AnyMatch(ImportPatterns, p[1]) || AnyMatch(AggressiveTargets, p[1]))) ||
      (InDir(["lib64"], p) && AnyMatch(ImportPatterns, p[1]))
  {
    var a := PatJobs(["lib"], ImportPatterns);
    var b := PatJobs(["lib64"], ImportPatterns);
    var c := PatJobs(["lib"], AggressiveTargets);
    HitByConcat(a + b, c, p);
    HitByConcat(a, b, p);
    PatJobsHit(["lib"], ImportPatterns, p);
    PatJobsHit(["lib64"], ImportPatterns, p);
    PatJobsHit(["lib"], AggressiveTargets, p);
  }

  /** A file directly in `lib` is deleted by clean_libs when an import
      pattern or an aggressive target matches its name. */
  lemma CleanLibsHitsLib(tree: set<Path>, name: string)
    requires AnyMatch(ImportPatterns, name) || AnyMatch(AggressiveTargets, name)
    ensures ["lib", name] !in Remaining(tree, CleanLibsJobs())
  {
    var p := ["lib", name];
    CleanLibsHit(p);
    assert p[..1] == ["lib"];
  }

  /** The pattern `*.dll.a` matches every import library that is not a dot-file. */
  lemma ImportLibraryMatchesWrap(name: string)
    requires |name| > 0 && name[0] != '.' && IsSuffix(".dll.a", Fold(name))
    ensures Matches(Wrap("", ".dll.a"), name)
  {
    FoldNoUpper("");
    FoldNoUpper(".dll.a");
    assert PatText(Wrap("", ".dll.a"))[0] == '*';
  }

  /** `*.dll.a`, the first import pattern, matches every import library that is not a dot-file. */
  lemma ImportLibraryMatches(name: string)
    requires |name| > 0 && name[0] != '.' && IsSuffix(".dll.a", Fold(name))
    ensures AnyMatch(ImportPatterns, name)
  {
    ImportLibraryMatchesWrap(name);
    AnyMatchIndex(ImportPatterns, 0, name);
  }

  /** The aggressive target `k` matches every spelling of its name. */
  lemma TargetMatches(k: nat, name: string)
    requires k < |AggressiveTargets| && AggressiveTargets[k].Literal?
    requires var s := AggressiveTargets[k].s; Fold(name) == s && |s| > 0 && s[0] != '.'
    ensures AnyMatch(AggressiveTargets, name)
  {
    var s := AggressiveTargets[k].s;
    FoldNoUpper(s);
    assert name[0] != '.' by { assert Fold(name)[0] == Lower(name[0]); }
    assert Matches(AggressiveTargets[k], name);
    AnyMatchIndex(AggressiveTargets, k, name);
  }

  /** After clean_libs, no import library `*.dll.a` is left in `lib`, nor
      `libzlibstatic.a` or `libz.a` under any spelling of their case. */
  lemma CleanLibsRemovesZlibArchives(tree: set<Path>, name: string)
    requires |name| > 0 && name[0] != '.'
    requires IsSuffix(".dll.a", Fold(name)) || Fold(name) == "libzlibstatic.a" || Fold(name) == "libz.a"
    ensures ["lib", name] !in Remaining(tree, CleanLibsJobs())
  {
    if IsSuffix(".dll.a", Fold(name)) {
      ImportLibraryMatches(name);
    } else if Fold(name) == "libzlibstatic.a" {
      TargetMatches(4, name);
    } else {
      TargetMatches(3, name);
    }
    CleanLibsHitsLib(tree, name);
  }

  // -----------------------------------------------------------------------
  // Final cleanup of bin

  /** The allow-list of build_v2_clang.py's final cleanup. */
  const ClangBinKeep: set<string> := {"mpv.exe", "mpv.com", "ffmpeg.exe", "ffplay.exe", "ffprobe.exe"}

  /** The allow-list of build.py's post-mpv cleanup. */
  const LegacyBinKeep: set<string> := {"mpv.exe", "mpv.com"}

  /** build_v2_clang.py: every entry of `bin` not in the allow-list is
      removed, a file with `os.remove`, a directory with everything below it
      by `shutil.rmtree`. Nothing outside `bin` changes. */
  function CleanBinClang(tree: set<Path>): (r: set<Path>)
    ensures r <= tree
    ensures forall p :: p in r && Below(["bin"], p) ==> p[1] in ClangBinKeep
    ensures forall p :: p in tree && (!Below(["bin"], p) || p[1] in ClangBinKeep) ==> p in r
  {
    set p | p in tree && (!Below(["bin"], p) || p[1] in ClangBinKeep)
  }

  /** build.py: every regular file directly in `bin` other than mpv.exe and
      mpv.com is removed; sub-directories are left alone. */
  function CleanBinLegacy(tree: set<Path>): (r: set<Path>)
    ensures r <= tree
    ensures forall p :: p in r && InDir(["bin"], p) ==> p[1] in LegacyBinKeep
    ensures forall p :: p in tree && (!InDir(["bin"], p) || p[1] in LegacyBinKeep) ==> p in r
  {
    set p | p in tree && (!InDir(["bin"], p) || p[1] in LegacyBinKeep)
  }

  /** The two cleanups differ on sub-directories: build.py keeps a file below
      a sub-directory of `bin`, build_v2_clang.py removes it. */
  lemma BinSubdirectoryDiffers(tree: set<Path>, sub: string, file: string)
    requires ["bin", sub, file] in tree && sub !in ClangBinKeep
    ensures ["bin", sub, file] in CleanBinLegacy(tree)
    ensures ["bin", sub, file] !in CleanBinClang(tree)
  {
    assert ["bin", sub, file][..1] == ["bin"];
  }
}
