# mpv static build scripts, modelled in Dafny

Two Python scripts build a statically linked `mpv.exe` for Windows inside MSYS2:

- `build_v2_clang.py` is the Clang variant.
- `build.py` is the older GCC variant.

Both scripts do the same job:

1. Check the command-line flags.
2. Fetch or update about thirty library sources, from git or from tarballs.
3. Walk a fixed table of packages. Each package is rebuilt when it is due: `--clean`, a missing marker file `.built_<name>`, a changed source, a detected corruption, or an earlier rebuild. A rebuild first purges the package's old archives and pkg-config metadata (`remove_pkg`), then runs the build commands, then repairs the installed `.pc` files.
4. Build ffmpeg, then mpv.
5. Clean up `bin`.

The model keeps each script's own structure:

- **Text**: the Python string operations both scripts use: `in`, `replace`, `split`/`join`, `rstrip`.
- **Glob**: `glob`/`fnmatch` on a single directory. This covers Windows case folding and the dot-file rule.
  - A `Pattern` datatype describes the three shapes the scripts write.
  - `MatchesAgree` proves the shape-wise reading equal to the general matcher.
- **Purge**: `remove_pkg` for both variants, `clean_libs` of `build.py`, and the two `bin` cleanups. The install tree is a set of paths, each a list of components.
- **PkgConfig**: both `patch_pc` functions and `create_pc`. The Clang `patch_pc` rewrites its lines in a loop, so it is modelled as methods proved against functions.
- **Sync**: `git_sync` of both scripts over the replies of the git commands, `download_with_retry`, the gettext mirror loop and both tarball branches.
- **Cli**: the argument check, the two `to_unix` conversions, `{pre}` substitution, the command dispatch of each script, and `mrun`.
- **Deps**: the two package tables.
- **BuildClang** and **BuildLegacy**: the package loop and the end of each script.
  - A `Row` holds one table entry as the loop sees it.
  - `Step`/`Run` specify one iteration and a prefix of the loop.
  - `BuildRow`/`RunRows`/`BuildAll` are the loops themselves, proved equal to the specification.
  - Lemmas state what the loop guarantees: rebuild propagation, markers, quiet reruns, abort causes, and what the fixups and cleanups leave behind.

The environment is passed in as parameters:

- the exit status of every external command;
- the files an install adds;
- whether sources changed;
- whether downloads succeed.

## Model

| member | source | states |
|---|---|---|
| Text.SplitLines | build_v2_clang.py:199 | splitting at newlines gives at least one piece and no piece holds a newline |
| Text.JoinSplit | build_v2_clang.py:199-203 | joining the pieces of a newline split gives back the text |
| Text.RStrip | build_v2_clang.py:202 | the result is a prefix of the line that does not end in white space, and only white space was removed; white space is every character Python's `str.isspace()` accepts |
| Text.ReplaceInserts | build.py:161-162 | replacing an occurring pattern leaves the replacement in the text |
| Text.ReplaceAbsent | build.py:165 | replacing a pattern that does not occur changes nothing |
| Glob.Fold | build_v2_clang.py:276 | case folding keeps the length of the name |
| Glob.FoldNoUpper | build_v2_clang.py:276 | a name without upper-case letters is its own folding, so lower-case patterns match it as written |
| Glob.PrefixStarSuffix | build_v2_clang.py:264 | `pre*suf` matches a name exactly when the name is long enough, starts with `pre` and ends with `suf` |
| Glob.InfixMatch | build_v2_clang.py:279 | `*x*suf` matches exactly the names that mention `x` before their `suf` ending |
| Glob.MatchesAgree | build_v2_clang.py:271-281 | the shape-wise description of a pattern agrees with glob matching on every well-formed pattern and every name |
| Purge.DeleteMatching | build_v2_clang.py:275-281 | the nested delete loops leave exactly the files that no job's glob returns |
| Purge.PatJobsHit | build_v2_clang.py:275-278 | the jobs of one directory hit exactly the files directly in it that some pattern matches |
| Purge.PkgJobsHit | build_v2_clang.py:271-281 | remove_pkg deletes a file exactly when it is an archive in `lib` or `lib64` matching an archive pattern, or a metadata file in their `pkgconfig` matching a metadata pattern |
| Purge.RemovePkg | build_v2_clang.py:248-281 | remove_pkg on the install tree removes exactly the files its jobs hit |
| Purge.RemovePkgKeepsOutsideLib | build.py:217-231 | remove_pkg never deletes anything outside `lib` and `lib64`: markers, headers and binaries survive |
| Purge.LibFileHits | build.py:221-224 | a file directly in `lib` is deleted exactly when an archive pattern matches its name |
| Purge.RemovePkgArchives | build_v2_clang.py:262-278 | for a package without extra patterns, the archives removed from `lib` are exactly those whose case-folded name starts with `lib{ln}` or `{ln}` and ends in `.a`, dot-files excepted |
| Purge.ZlibAlias | build_v2_clang.py:255 | zlib's library base name is `z` in both scripts |
| Purge.PcFileHits | build.py:225-227 | a file directly in `lib/pkgconfig` is deleted exactly when a metadata pattern matches its name |
| Purge.ZlibPurgesZimgPc | build_v2_clang.py:262-281 | remove_pkg('zlib') also deletes zimg's `lib/pkgconfig/zimg.pc`, through `*z*.pc` |
| Purge.CleanLibs | build.py:180-194 | clean_libs of build.py removes exactly the files hit by its import patterns and aggressive targets |
| Purge.CleanLibsHit | build.py:182-194 | clean_libs deletes a file exactly when it lies directly in `lib` and an import pattern or aggressive target matches it, or directly in `lib64` and an import pattern matches it |
| Purge.CleanLibsHitsLib | build.py:185-194 | a file directly in `lib` that an import pattern or target matches is gone after clean_libs |
| Purge.ImportLibraryMatches | build.py:185 | `*.dll.a` matches every import library that is not a dot-file |
| Purge.TargetMatches | build.py:190 | each aggressive target matches its own name in every case spelling |
| Purge.CleanLibsRemovesZlibArchives | build.py:180-194 | after clean_libs no `*.dll.a`, `libz.a` or `libzlibstatic.a` is left in `lib`, whatever the case of the name |
| Purge.CleanBinClang | build_v2_clang.py:927-937 | every entry of `bin` outside the allow-list is removed (a directory with everything below it), and nothing outside `bin` changes |
| Purge.CleanBinLegacy | build.py:661-663 | every file directly in `bin` other than mpv.exe and mpv.com is removed, sub-directories stay, and nothing outside `bin` changes |
| Purge.BinSubdirectoryDiffers | build.py:661-663 | build.py keeps a file inside a sub-directory of `bin` that build_v2_clang.py removes |
| PkgConfig.PatchPcLegacy | build.py:156-169 | a missing file is left alone; otherwise only the given file is rewritten, its new content is `PatchLegacy` of the old, and no file is added or removed |
| PkgConfig.InsertLibsHolds | build.py:160-163 | after the insertion step the text holds `libs` |
| PkgConfig.InsertLibsChanges | build.py:160-163 | the insertion step changes the text exactly when `libs` is absent, and then makes it longer |
| PkgConfig.StripLdlChanges | build.py:165 | stripping `-ldl` changes the text exactly when it holds `-ldl`, and never lengthens it |
| PkgConfig.PatchLegacyInsertsOnce | build.py:160-165 | once `libs` is present, patching only strips `-ldl` and the text does not grow |
| PkgConfig.PatchLegacyFixedPoint | build.py:156-169 | a text holding `libs` and no `-ldl` is a fixed point of patch_pc, so repeated patching is stable |
| PkgConfig.PatchLegacyHoldsLibs | build.py:160-165 | when the insertion creates no `-ldl`, the patched text holds `libs` |
| PkgConfig.AppendLines | build_v2_clang.py:200-202 | the append loop keeps the number of lines |
| PkgConfig.AppendToLibsLines | build_v2_clang.py:199-203 | the in-place line loop computes the line-wise rewrite |
| PkgConfig.AppendLinesEffect | build_v2_clang.py:200-202 | every library line the loop touches ends with the addition; every other line is unchanged |
| PkgConfig.ShimStep | build_v2_clang.py:198-203 | the split, rewrite and join computes the shim stage |
| PkgConfig.LibsStep | build_v2_clang.py:206-211 | the split, rewrite and join computes the extra-libraries stage |
| PkgConfig.PatchPcClang | build_v2_clang.py:176-218 | a missing file is left alone; an existing one is replaced by the Clang patch of its text, and no other file changes |
| PkgConfig.AppendStage | build_v2_clang.py:199-203 | an append loop leaves the addition in the text when some line declares libraries, and returns the text unchanged when none does |
| PkgConfig.ShimStageEffect | build_v2_clang.py:198-203 | the shim stage changes the text exactly when the shim is absent and some line declares libraries; the shim is then present |
| PkgConfig.ShimStageIdempotent | build_v2_clang.py:198-203 | running the shim stage twice equals running it once |
| PkgConfig.LibsStageEffect | build_v2_clang.py:206-211 | the extra-libraries stage changes the text exactly when `libs` is non-empty and absent and some line declares libraries; `libs` is then present |
| PkgConfig.LibsStageIdempotent | build_v2_clang.py:206-211 | running the extra-libraries stage twice equals running it once |
| PkgConfig.AppendStageKeeps | build_v2_clang.py:199-203 | an append loop keeps every newline-free text of the file that does not end in white space, so `rstrip()` never cuts an earlier append |
| PkgConfig.PatchClangFixedPoint | build_v2_clang.py:176-218 | a non-SDL2 text without `prefix=/ucrt64` and `-ldl` that already holds the shim and the extra libraries (or has no library line) is left unchanged |
| PkgConfig.PatchClangIdempotent | build_v2_clang.py:176-218 | on a file that is not an SDL2 file, a second patch_pc changes nothing once the text reaching the `-ldl` removal holds neither `-ldl` nor `prefix=/ucrt64`: the prefix fix, the shim and the extra libraries are each applied at most once |
| PkgConfig.SdlFixReinserts | build_v2_clang.py:194-195 | without `Libs.private:`, the SDL2 repair has no guard and makes the text longer on every call |
| PkgConfig.SdlFixPrivateGuarded | build_v2_clang.py:192-193 | with `Libs.private:`, the SDL2 repair is guarded by `-lsetupapi`, which it inserts, and an already repaired file is left alone |
| PkgConfig.PcTemplateFlat | build_v2_clang.py:226 | for newline-free fields every template line is a single line |
| PkgConfig.PcTemplateLibsLine | build_v2_clang.py:226 | the only template line declaring libraries is the `Libs:` line |
| PkgConfig.PcTemplateSplits | build_v2_clang.py:226 | for newline-free fields the created text reads back as its twelve lines and holds `libs` |
| PkgConfig.WritePc | build_v2_clang.py:220-227 | create_pc removes the `lib64` copy, writes the text to `lib/pkgconfig/{name}.pc`, and changes nothing else |
| PkgConfig.KeepOnly | build.py:186-194 | deleting files keeps exactly the files in the kept set, with their contents |
| Sync.Update | build_v2_clang.py:164-174 | the update block reports a change exactly when every command succeeded and HEAD moved; the commands run are a prefix of the block, all of it exactly when reset, the first rev-parse, pull and submodule update succeed |
| Sync.SyncClang | build_v2_clang.py:143-174 | it raises exactly when there is no repository, updates are allowed and the clone fails; `--skip-updates` runs nothing and reports no change; a change is reported after a fresh clone or when HEAD moved; the remote is reset exactly when it differs from the URL |
| Sync.SyncLegacy | build.py:128-154 | it raises exactly when the directory is missing and the clone fails, `--skip-updates` or not; a change is reported exactly when updates are allowed and HEAD moved; the remote is reset only with updates allowed; `--skip-updates` runs no reset or pull |
| Sync.FreshCloneReported | build.py:128-154 | a fresh clone whose pull leaves HEAD in place is reported changed by the Clang script and unchanged by build.py |
| Sync.SyncVariantsAgree | build_v2_clang.py:157-174 | on an existing repository with updates allowed, both scripts run the same commands and agree on `changed` |
| Sync.Tries | build_v2_clang.py:76-80 | a loop stopping at its first success makes at most one attempt per answer, every attempt before the last failed, and the last succeeded exactly when some answer succeeds |
| Sync.DownloadWithRetry | build_v2_clang.py:75-85 | success exactly when one of the first `retries` attempts succeeds; the attempts stop at the first success; a success comes after one sleep per failed attempt, a failure after all `retries` attempts and one sleep fewer |
| Sync.TryMirrors | build.py:403-407 | the mirror loop fetches exactly when some mirror answers, and stops at the first that does |
| Sync.TriesFirst | build_v2_clang.py:76-80 | a first success at index `k` means `k + 1` attempts |
| Sync.TriesNone | build_v2_clang.py:76-85 | with no success, every answer is tried |
| Sync.TarballLegacy | build.py:401-449 | the script stops exactly when the tarball is missing and no mirror delivers it; otherwise tarball and directory are present, a change is reported exactly when the directory was missing or (xz, fftw) lacked `configure`, and an unchanged directory is kept as it was |
| Sync.TarballClang | build_v2_clang.py:641-670 | the script stops exactly when the directory is missing or a git checkout, the tarball is missing and none of the three download attempts succeeds; otherwise a change is reported exactly when the directory was missing or a git checkout, and then it is freshly unpacked |
| Sync.TarballSettles | build.py:401-449 | running the branch again over what it left behind, with no download available, goes on and reports nothing changed, in both scripts |
| Sync.MissingTarballStopsOnlyLegacy | build.py:403-407 | with the source unpacked but its tarball deleted, build.py stops when it cannot fetch the tarball again; the Clang script carries on |
| Cli.ParseArgs | build_v2_clang.py:60-65 | the run stops exactly when some argument is outside the allowed four; otherwise each flag is set exactly when its argument is given |
| Cli.ParseArgsOrderFree | build.py:60-65 | arguments with the same set of values parse the same way |
| Cli.ToUnix | build_v2_clang.py:450-457 | the length is kept and no backslash is left; a path with a colon second becomes `/`, its lower-cased drive letter and the rest with slashes; any other path only has its backslashes turned into slashes |
| Cli.ToUnixIdempotent | build_v2_clang.py:450-457 | converting twice equals converting once, except for a path starting with two colons |
| Cli.ToUnixLegacy | build.py:276 | the length is kept and no backslash is left |
| Cli.ToUnixAgree | build.py:276 | for a path under `C:\` that does not mention `C:/` again, both conversions agree |
| Cli.LegacyKeepsOtherDrive | build.py:276 | build.py leaves any drive letter other than `C` (and a lower-case `c`) in place |
| Cli.ClangRewritesDrive | build_v2_clang.py:454-456 | build_v2_clang.py rewrites every drive letter |
| Cli.SubstPre | build_v2_clang.py:717 | a missing or empty template gives no flags; otherwise the result is the template with every `{pre}` replaced by the prefix, left to right and nothing else changed (Python `str.replace`); a template without `{pre}` is used as it is; one with `{pre}` ends up holding the prefix |
| Cli.SubstPreComplete | build_v2_clang.py:717 | a prefix longer than three characters and without braces leaves no `{pre}` placeholder in the flags |
| Cli.DispatchClang | build_v2_clang.py:722-797 | a package without a kind runs nothing, every other ends with an install; configure steps carry the substituted flags; generation steps come first and only for autotools-like packages without `configure`; with only `configure.ac`, `autoreconf` and a lone `-i` are two separate commands, as `mrun` runs each list element; xz compiles with one job |
| Cli.DispatchLegacy | build.py:499-554 | a package with neither a name branch nor a kind runs nothing; name branches and the meson, cmake, autotools and luajit kinds end with an install; configure steps carry the substituted flags; only zimg, libiconv and libass run a generation step |
| Cli.DispatchAgree | build_v2_clang.py:722-797 | meson and cmake packages build with the same commands in both scripts |
| Cli.XzJobs | build_v2_clang.py:775 | xz compiles with one job in build_v2_clang.py and with all of them in build.py |
| Cli.MRun | build.py:119-120 | the result is success exactly when every command succeeds; the commands run are those up to and including the first failure, all of them on success |
| Cli.Outcomes | build_v2_clang.py:134-135 | the statuses of the first `n` commands, a missing answer counting as success |
| Cli.TriesConcat | build_v2_clang.py:134-135 | a loop over `a + b` stopping at the first hit makes the attempts over `a` when `a` holds a hit, and otherwise all of `a` and then the attempts over `b` |
| Cli.MRunSequence | build.py:551-552 | two `mrun` calls in a row run all of `x` and then `y` up to its first failure when `x` succeeds, and otherwise `x` up to its first failure |
| Deps.ClangTable | build_v2_clang.py:595-631 | the Clang table lists one entry per package, in table order |
| Deps.ClangTableOrdered | build_v2_clang.py:595-631 | every `depends_on` name refers to a package declared earlier in the table |
| BuildClang.Expected | build_v2_clang.py:674-695 | no check for exactly gettext, glslang, spirv-tools and spirv-headers; every check lies under `lib`; packages without an entry check their own `lib/pkgconfig/{n}.pc` |
| BuildClang.EditFile | build_v2_clang.py:732-739 | only the edited file changes and no file appears or disappears |
| BuildClang.KindFixes | build_v2_clang.py:732-762 | the kind repairs delete nothing and add at most libarchive's metadata file |
| BuildClang.PatchMatching | build_v2_clang.py:799-800 | the files stay the same; every file the glob finds gets the Clang patch of its text, every other file keeps its text |
| BuildClang.PatchSetLoop | build_v2_clang.py:799-800 | patching the glob's hits one at a time gives the set-wise patch of all of them |
| BuildClang.AfterMarker | build_v2_clang.py:802-837 | the late repairs delete nothing, add at most spirv-cross-c-shared.pc, and change only paths of the `lib/pkgconfig/<file>` shape |
| BuildClang.Purged | build_v2_clang.py:706 | the purge keeps exactly what no job hits, with unchanged contents |
| BuildClang.Built | build_v2_clang.py:706-837 | a successful rebuild leaves an empty marker and adds nothing but the installed files, the marker and the generated libarchive and spirv-cross-c-shared metadata files |
| BuildClang.RowOf | build_v2_clang.py:635-704 | a row carries the entry's package, dependencies, expected output, purge jobs and commands |
| BuildClang.CheckOutput | build_v2_clang.py:672-701 | the integrity check deletes at most the marker, and the marker survives exactly when the expected output is present or there is nothing to check |
| BuildClang.Step | build_v2_clang.py:635-838 | a skipped row or an aborted run changes nothing; a due row aborts exactly when a command fails, and otherwise joins the updated set |
| BuildClang.Rows | build_v2_clang.py:635 | the rows are the table's entries, one by one and in order |
| BuildClang.InstallAndRepair | build_v2_clang.py:722-837 | the statement-by-statement rebuild computes `Built` |
| BuildClang.BuildRow | build_v2_clang.py:636-838 | one iteration computes `Step` |
| BuildClang.AbortedStays | build_v2_clang.py:797 | once a build command has failed, no later row changes anything |
| BuildClang.RunRows | build_v2_clang.py:635-838 | the loop computes `Run` over all rows |
| BuildClang.RunDeps | build_v2_clang.py:633-838 | the loop over the Clang table computes `Run` over its rows |
| BuildClang.StaleWhen | build_v2_clang.py:695-704 | a row is rebuilt exactly under `--clean`, a missing marker, a marker with a missing expected output, a changed source, or a dependency rebuilt in this run |
| BuildClang.UpdatedGrows | build_v2_clang.py:801 | the set of rebuilt packages only grows |
| BuildClang.UpdatedFromRows | build_v2_clang.py:801 | only packages of the rows run so far are in the updated set |
| BuildClang.Propagates | build_v2_clang.py:703-704 | once a row is rebuilt, every later row listing it as a dependency is rebuilt too, unless the run aborted first |
| BuildClang.RowOfMarks | build_v2_clang.py:801 | every row of the table writes its marker on a successful rebuild |
| BuildClang.NoKindStillMarked | build_v2_clang.py:722-801 | a due entry without a build kind runs nothing, does not abort, joins the updated set and gets its marker |
| BuildClang.RebuiltIsMarked | build_v2_clang.py:801 | a row that joins the updated set in its step did not abort and left its marker in the tree |
| BuildClang.QuietRun | build_v2_clang.py:695-704 | without `--clean`, with no source changed and every marker and expected output present, the loop leaves the state exactly as it was |
| BuildClang.AbortCause | build_v2_clang.py:797 | an aborted run has a row that was due, whose command failed, and after which nothing changed |
| BuildClang.RowOfAdds | build_v2_clang.py:706-837 | a rebuild adds at most its installed files, its marker and the two generated metadata files |
| BuildClang.StaysAbsent | build_v2_clang.py:706-837 | a missing file stays missing through a row that does not abort, unless that row's rebuild may add it |
| BuildClang.ClangRows | build_v2_clang.py:635 | the run has one row per table entry |
| BuildClang.PurgedOutputForcesRebuild | build_v2_clang.py:695-706 | when row `j` is rebuilt, a file its purge hits that neither its rebuild nor row `j + 1`'s may add is missing at row `j + 2`, so row `j + 2` is rebuilt if it expects that file |
| BuildClang.ZlibJobsHitZimgPc | build_v2_clang.py:279 | zlib's purge jobs hit `lib/pkgconfig/zimg.pc` |
| BuildClang.ZlibPurgeReachesZimg | build_v2_clang.py:595-631 | zlib comes two rows before zimg, which does not depend on it but expects `lib/pkgconfig/zimg.pc`, a file zlib's purge deletes |
| BuildClang.PreMissesDriveRoot | build_v2_clang.py:458 | for an install directory on a drive, `pre` does not name that directory under Windows path comparison |
| BuildClang.OwnPcFound | build_v2_clang.py:799 | a lower-case name not starting with a dot is found by its own glob `*{n}*.pc` |
| BuildClang.BuiltFile | build_v2_clang.py:722-801 | for a package without late repairs, a rebuilt file holds its installed text after the kind repairs, then patch_pc when the glob finds it |
| BuildClang.RubberbandKindFix | build_v2_clang.py:732-739 | after the kind repairs, rubberband.pc holds the repaired install text when the lookup reaches the install directory, and the install text unchanged otherwise |
| BuildClang.RubberbandUnpatchedAsWritten | build_v2_clang.py:733 | as written, with the install directory on a drive, the installed rubberband.pc is left exactly as the install wrote it |
| BuildClang.RubberbandRepaired | build_v2_clang.py:732-739 | with the lookups through the native directory, rubberband.pc gets `-lstdc++` from its repair and is then patched |
| BuildClang.Final1 | build_v2_clang.py:843-869 | a final build that is not due changes nothing; a successful one adds its installed files and its marker |
| BuildClang.Tail | build_v2_clang.py:841-937 | an aborted run stays as it is; a finished run leaves only allow-listed entries in `bin`; the updated set is unchanged |
| BuildClang.BuildAll | build_v2_clang.py:487-937 | the whole run computes `Whole` |
| BuildClang.FfmpegChangeSkipsMpv | build_v2_clang.py:874 | an ffmpeg-only source change rebuilds ffmpeg, but a marked and unchanged mpv is not rebuilt: the end of the script only installs ffmpeg, writes its marker and cleans `bin` |
| BuildClang.LoopRebuildReachesFinals | build_v2_clang.py:843-874 | any package rebuilt by the loop makes both ffmpeg and mpv due |
| BuildClang.QuietWhole | build_v2_clang.py:635-937 | a quiet rerun with every marker and expected output present leaves the tree as it was, apart from the `bin` cleanup |
| BuildLegacy.PcName | build.py:456-464 | the checked metadata name is never empty, and spirv-cross, spirv-headers, glslang and bzip2 are not checked |
| BuildLegacy.Copy | build.py:569-570 | `shutil.copy` when the source exists puts the source's text at the destination and changes nothing else; a missing source leaves the tree unchanged |
| BuildLegacy.AfterCommands | build.py:513-554 | the package-specific steps delete nothing but the `lib64` copies of the metadata they create |
| BuildLegacy.CleanedLibs | build.py:556 | clean_libs keeps exactly what its jobs do not hit, with unchanged contents |
| BuildLegacy.Installed | build.py:489-557 | a successful rebuild leaves an empty marker |
| BuildLegacy.LuaAliasCopies | build.py:596-598 | every alias ends up present; existing files keep their text; a new alias is a copy of luajit.pc |
| BuildLegacy.Fixup | build.py:560-600 | every fixup deletes nothing except files below `lib64` |
| BuildLegacy.LuajitAliases | build.py:590-598 | luajit.pc is patched with `-lm`; every alias exists afterwards; an old alias keeps its text and a new one copies the patched luajit.pc |
| BuildLegacy.ShadercAliases | build.py:565-571 | with the combined archive installed, both alias archives are copies of it and shaderc.pc is the generated template |
| BuildLegacy.SpirvLibsShape | build.py:573-576 | the link line starts with the C API and ends with the C++ runtime, and names the msl and cpp archives exactly when they are installed |
| BuildLegacy.RowOf | build.py:395-557 | a row carries the checked files, purge jobs, commands and fixup of its package |
| BuildLegacy.Step | build.py:395-600 | an aborted run stays as it is; a row that is not due only gets its fixup; a due row aborts exactly when a command fails; the rebuilt flag is set exactly by a successful due row |
| BuildLegacy.LegacyRows | build.py:395 | the rows are the table's entries, one by one and in order |
| BuildLegacy.BuildRow | build.py:396-600 | one iteration computes `Step` |
| BuildLegacy.AbortedStays | build.py:96-105 | once a command has failed, no later row changes anything |
| BuildLegacy.RunRows | build.py:394-600 | the loop computes `Run` over all rows |
| BuildLegacy.Sticky | build.py:486 | the `deps_rebuilt` flag never goes back to false |
| BuildLegacy.EveryLaterRowDue | build.py:486-488 | after any rebuild, every later row the loop reaches is due and, unless it aborts, is purged, rebuilt and fixed up |
| BuildLegacy.RebuiltIff | build.py:394-557 | the flag after `k` rows is set exactly when it was set at the start or some row so far was due and built successfully |
| BuildLegacy.PrefixOnly | build.py:395 | the state after `k` rows depends only on those rows |
| BuildLegacy.MissingPcNeedsMissingLib | build.py:465-478 | a marked package missing its metadata file is rebuilt exactly when its archive is missing too |
| BuildLegacy.LuajitForced | build.py:451-453 | LuaJIT without its archive is rebuilt even when marked and unchanged |
| BuildLegacy.SpirvHeadersChecked | build.py:484 | a marked spirv-headers without its header is rebuilt although it has no metadata file to check |
| BuildLegacy.SkippedStillFixed | build.py:558-600 | a package that is not due still gets its fixup |
| BuildLegacy.RowOfKeeps | build.py:560-600 | no row's fixup deletes anything outside `lib64` |
| BuildLegacy.NameWatched | build.py:455-484 | none of the files the checks look at lies below `lib64` |
| BuildLegacy.RowOfWatched | build.py:455-484 | no row checks a file below `lib64` |
| BuildLegacy.SettledGrows | build.py:455-488 | checks that pass keep passing when every file outside `lib64` survives |
| BuildLegacy.QuietRun | build.py:394-600 | a rerun with nothing changed and every package in place never stops and never sets the rebuilt flag, and every checked file stays in place |
| BuildLegacy.ZlibNeverRestored | build.py:617-619 | after the restore step neither `libzlibstatic.a` nor `libz.a` is in `lib` |
| BuildLegacy.FfmpegStep | build.py:622-643 | ffmpeg that is not due changes nothing; a successful build leaves its marker; the rebuilt flag is unchanged |
| BuildLegacy.MpvStep | build.py:648-663 | mpv that is not due changes nothing; a successful build leaves its marker and only mpv.exe and mpv.com directly in `bin` |
| BuildLegacy.Tail | build.py:606-663 | an aborted run stays as it is; a failed integrity gate stops with the tree as the loop left it |
| BuildLegacy.Restore | build.py:617-619 | the statement-by-statement restore computes `Restored` |
| BuildLegacy.BuildFfmpeg | build.py:622-643 | the ffmpeg build computes `FfmpegStep` |
| BuildLegacy.BuildMpv | build.py:648-663 | the mpv build computes `MpvStep` |
| BuildLegacy.Finish | build.py:606-663 | the end of the script computes `Tail` |
| BuildLegacy.BuildAll | build.py:306-663 | the whole run computes `Whole` |
| BuildLegacy.GateStopsBeforeFfmpeg | build.py:606-615 | a failed gate stops the script before ffmpeg, with the tree as the loop left it |
| BuildLegacy.FfmpegChangeRebuildsMpv | build.py:648 | an ffmpeg source change with a successful ffmpeg build makes mpv due |
| BuildLegacy.MpvLeavesOnlyMpv | build.py:660-663 | whenever mpv is built, `bin` ends with no file directly in it but mpv.exe and mpv.com |
| BuildLegacy.QuietTail | build.py:617-648 | with both markers present and nothing changed, the end of the script only runs clean_libs and the restore |
| BuildLegacy.CleanLibsKeepsMarker | build.py:180-194 | clean_libs never deletes a marker |
| BuildLegacy.QuietWhole | build.py:394-663 | a quiet rerun rebuilds nothing in the loop and, with the gate passing and ffmpeg and mpv marked and unchanged, builds nothing at all: only the restore step changes the tree |

## Left out

- The process, file-system, network and clock effects are parameters: command exit statuses, installed files, git replies, download outcomes. Nothing is spawned, logged, slept or signalled. `rmd`, `extract_tar` and copying a source into the working directory are not modelled.
- The literal text of the build commands and of generated `.pc` bodies is opaque. Commands are compared by kind, flags and job count, not as shell strings.
- Glob matching covers only `*`, which is the only wildcard the scripts use. Case folding is ASCII lower case. Paths are lists of components, so Windows separators and drive letters are handled only where `SameDir` compares a prefix with the install directory.
- `SameDir` approximates Windows path equality: ASCII case folding and both separators, but no `..`, short names or links.
- The `clean_libs` of build_v2_clang.py (lines 229-246) is never called by that script, so it is not modelled.
- `--force-resume` is parsed and only logged by both scripts.
- The environment set-up is left out: MSYS2 installation, pacman, mirror lists, the vsnprintf shim, CUDA and MSVC import, the compiler variables `CC`/`CXX`.
- The pre-loop imports of build_v2_clang.py (vulkan, SDL2 and OpenCL files and their aliases) and of build.py (vulkan.pc, its patch, removal of `*shared*` metadata, the vulkan import library and its alias) are not modelled.
- Directory moves after unpacking a tarball, expat's sub-directory move, the fribidi `meson.build` edit and the shaderc third_party copy happen in working directories, not in the install tree, and are left out.
- The SDL2 header copy, the mpv native file and the strip of the executables before the `bin` cleanup in build_v2_clang.py are left out. So are `dump_meson_summary`, `debug_pkg_config` and the DLL dependency check of build.py. These only log or write outside the install tree.
- BuildClang.Step: when a command fails, the state records only the abort. It keeps the purged tree and does not describe what partial output the failing command left.
- BuildLegacy.Step: when a command fails, the state records only the abort and keeps the purged tree; partial output of the failing command is not described.
- Cli.Outcomes: an exit status beyond the supplied answers counts as success, so a short answer list cannot model a failure of a later command.
- BuildLegacy.RowOf: fetching the sources (git_sync and the tarball branches) is folded into the row's `changed` input. Its failure paths are modelled only in Sync, by `TarballLegacy` and `MissingTarballStopsOnlyLegacy`.
- BuildClang.RowOf: fetching the sources is folded into the row's `changed` input. Its failure paths are modelled only in Sync, by `TarballClang` and `DownloadWithRetry`.
- BuildClang.RowOf: the rows build with the corrected `.pc` lookup of the Findings table (`Built` with `reach` true). As written, build_v2_clang.py opens the rubberband file and the `patch_pc` glob under `pre`, which misses an install directory on a drive; that behaviour is modelled only by `RubberbandUnpatchedAsWritten`.
- BuildClang.InstallAndRepair: computes `Built` with the corrected `.pc` lookup, for the same reason as `RowOf`.
- BuildClang.RunDeps: runs over `RowOf` rows, so it describes the loop with the corrected `.pc` lookup, not the as-written one.
- BuildClang.BuildAll: the whole run is `Whole` over `RowOf` rows, so it too describes the corrected `.pc` lookup.
- BuildClang.Tail: `os.listdir` on a missing `bin` raises at build_v2_clang.py:929; the install tree holds files only, so a missing `bin` cannot be told from an empty one, and the model finishes the cleanup normally.
- BuildLegacy.MpvStep: `os.listdir` on a missing `bin` raises at build.py:661; as for `BuildClang.Tail`, the model cannot tell a missing `bin` from an empty one and does not record that abort.
- PkgConfig.PatchPcClang: the SDL2 branch is chosen from the file name alone; build_v2_clang.py tests the lower-cased whole path, so a directory whose name contains `sdl2.pc` would also select it.
- PkgConfig.PatchClangIdempotent: convergence is proved only for texts with no `-ldl` left before the final removal. When that removal joins text into a new `Libs:` line (for example `-ldlLibs: -lfoo`), a second call appends the shim again.
- BuildClang.FfmpegChangeSkipsMpv: an ffmpeg-only change leaving mpv untouched is documented as behaviour, not reported as a defect. The script may intend it.
- BuildLegacy.ZlibNeverRestored: the restore of `libz.a` right after clean_libs can never copy anything, because clean_libs has just deleted `libzlibstatic.a`. This is stated as behaviour, not reported as a defect, because the script may not need the alias at that point.
- Deps: only the package names, kinds and dependency lists of the tables are kept; the configure flag strings are opaque.

## Findings

| source | as written | input that shows it | evidently intended | confidence | as-written member | corrected member |
|---|---|---|---|---|---|---|
| build_v2_clang.py:733 and 799-800 | the rubberband repair and the patch_pc glob open paths under `pre`, the MSYS2 form `/c/...` of the install directory, with native Windows file operations | install directory `C:\mpv\installed`, rubberband rebuilt: `pre` is `/c/mpv/installed`, which Windows resolves to `\c\mpv\installed` on the current drive, so rubberband.pc gets neither `-lstdc++` nor patch_pc | open the files through the native install directory, as the spirv-cross, shaderc and libarchive repairs in the same loop do | not executed | BuildClang.RubberbandUnpatchedAsWritten | BuildClang.RubberbandRepaired |
