// Fetching sources: git_sync, the download retry loop and the tarball
// branches of both build scripts. Processes, the network and the file
// system are parameters: every command's answer is handed in up front.

module Sync {

  /** The answer of one `run` of a command: a zero exit with its
      (already stripped) standard output, or a non-zero exit, which `run`
      raises as CalledProcessError. */
  datatype Run = Ok(out: string) | Failed

  /** The git commands git_sync may issue, in the order it issues them. */
  datatype GitCmd = Clone | GetUrl | SetUrl | Reset | RevParse | Pull | SubmoduleUpdate

  /** What each git command would answer if it were run. */
  datatype Replies = Replies(
    clone: bool,
    getUrl: Run,
    setUrl: bool,
    reset: bool,
    oldHead: Run,
    pull: bool,
    submodule: bool,
    newHead: Run)

  /** The result of git_sync: the clone failed and its exception escapes
      (the whole build stops), or the sync returned `changed`. Both carry
      the commands that were run, in order. */
  datatype SyncResult = Raised(cmds: seq<GitCmd>) | Synced(changed: bool, cmds: seq<GitCmd>)

  /** The full update sequence, run when every command succeeds. */
  const UpdateCmds: seq<GitCmd> := [Reset, RevParse, Pull, SubmoduleUpdate, RevParse]

  /** Every update command succeeded and the two `rev-parse HEAD` differ. */
  predicate Advanced(r: Replies)
  {
    r.reset && r.oldHead.Ok? && r.pull && r.submodule && r.newHead.Ok?
    && r.oldHead.out != r.newHead.out
  }

  /** The update block shared by both scripts: reset, record HEAD, pull,
      update submodules, record HEAD again; the first failing command ends
      it with `False`, and the answer is whether HEAD moved. */
  function Update(r: Replies): (s: SyncResult)
    ensures s.Synced?
    ensures s.changed <==> Advanced(r)
    ensures 0 < |s.cmds| <= |UpdateCmds| && s.cmds == UpdateCmds[..|s.cmds|]
    ensures |s.cmds| == |UpdateCmds| <==> r.reset && r.oldHead.Ok? && r.pull && r.submodule
  {
    if !r.reset then Synced(false, [Reset])
    else if r.oldHead.Failed? then Synced(false, [Reset, RevParse])
    else if !r.pull then Synced(false, [Reset, RevParse, Pull])
    else if !r.submodule then Synced(false, [Reset, RevParse, Pull, SubmoduleUpdate])
    else if r.newHead.Failed? then Synced(false, UpdateCmds)
    else Synced(r.oldHead.out != r.newHead.out, UpdateCmds)
  }

  /** The remote check: `get-url`, then `set-url` when the answer differs
      from the wanted URL and `allowed` holds; any failure is swallowed. */
  function RemoteCmds(url: string, r: Replies, allowed: bool): seq<GitCmd>
  {
    if r.getUrl.Ok? && r.getUrl.out != url && allowed then [GetUrl, SetUrl] else [GetUrl]
  }

  function Prefixed(pre: seq<GitCmd>, s: SyncResult): SyncResult
  {
    match s
    case Raised(c) => Raised(pre + c)
    case Synced(ch, c) => Synced(ch, pre + c)
  }

  /** git_sync of build_v2_clang.py. `isRepo` is whether `<dir>/.git` is a
      directory. Without a repository the directory is cloned afresh and
      reported changed; with one, the remote is corrected and the update
      block decides. `--skip-updates` runs no command at all. */
  function SyncClang(isRepo: bool, skip: bool, url: string, r: Replies): (s: SyncResult)
    ensures s.Raised? <==> !isRepo && !skip && !r.clone
    ensures skip ==> s == Synced(false, [])
    ensures s.Synced? && s.changed <==> !skip && ((!isRepo && r.clone) || (isRepo && Advanced(r)))
    ensures Clone in s.cmds <==> !isRepo && !skip
    ensures SetUrl in s.cmds <==> isRepo && !skip && r.getUrl.Ok? && r.getUrl.out != url
    ensures Pull in s.cmds ==> isRepo && !skip && r.reset && r.oldHead.Ok?
  {
    if !isRepo then
      if skip then Synced(false, [])
      else if r.clone then Synced(true, [Clone])
      else Raised([Clone])
    else if skip then Synced(false, [])
    else Prefixed(RemoteCmds(url, r, true), Update(r))
  }

  /** git_sync of build.py. `present` is whether the directory exists. A
      missing directory is cloned even under `--skip-updates`; the remote
      is corrected only when updates are allowed; a fresh clone is then
      updated like any other checkout, so it counts as changed only when
      the pull moves HEAD. */
  function SyncLegacy(present: bool, skip: bool, url: string, r: Replies): (s: SyncResult)
    ensures s.Raised? <==> !present && !r.clone
    ensures s.Synced? && s.changed <==> !skip && (present || r.clone) && Advanced(r)
    ensures Clone in s.cmds <==> !present
    ensures SetUrl in s.cmds <==> present && !skip && r.getUrl.Ok? && r.getUrl.out != url
    ensures skip ==> Reset !in s.cmds && Pull !in s.cmds
  {
    var pre := if !present then [Clone] else RemoteCmds(url, r, !skip);
    if !present && !r.clone then Raised([Clone])
    else if skip then Synced(false, pre)
    else Prefixed(pre, Update(r))
  }

  /** A fresh clone whose pull leaves HEAD where it is: the Clang script
      reports the sources changed, the legacy script does not. */
  lemma FreshCloneReported(url: string, r: Replies)
    requires r.clone && !Advanced(r)
    ensures SyncClang(false, false, url, r) == Synced(true, [Clone])
    ensures SyncLegacy(false, false, url, r).Synced?
    ensures !SyncLegacy(false, false, url, r).changed
    ensures Clone in SyncLegacy(false, false, url, r).cmds
  {
  }

  /** With an existing repository and updates allowed, both scripts run the
      same update block and agree on `changed`. */
  lemma SyncVariantsAgree(url: string, r: Replies)
    ensures SyncClang(true, false, url, r) == SyncLegacy(true, false, url, r)
  {
  }

  // ---------------------------------------------------------------------
  // Downloads

  /** The number of attempts a loop that stops at its first success makes
      over the answers `a`. */
  function Tries(a: seq<bool>): (n: nat)
    ensures n <= |a|
    ensures forall i | 0 <= i < n - 1 :: !a[i]
    ensures (exists i | 0 <= i < |a| :: a[i]) <==> 0 < n && a[n - 1]
    ensures n < |a| ==> 0 < n && a[n - 1]
  {
    if |a| == 0 then 0
    else if a[0] then 1
    else
      var k := Tries(a[1..]);
      assert forall i | 0 <= i < |a| - 1 :: a[1..][i] == a[i + 1];
      1 + k
  }

  /** The retry count download_with_retry is always called with. */
  const Retries: nat := 3

  /** download_with_retry of build_v2_clang.py: up to `retries` attempts,
      returning at the first success, sleeping after each failure except
      the last; `ok == false` stands for the exception raised after the
      last failure. */
  method DownloadWithRetry(attempts: seq<bool>, retries: nat) returns (ok: bool, tries: nat, sleeps: nat)
    requires retries <= |attempts|
    ensures ok <==> exists i | 0 <= i < retries :: attempts[i]
    ensures tries == Tries(attempts[..retries])
    ensures ok ==> sleeps == tries - 1
    ensures !ok ==> tries == retries && sleeps == if retries == 0 then 0 else retries - 1
  {
    ghost var a := attempts[..retries];
    var i := 0;
    sleeps := 0;
    while i < retries
      invariant 0 <= i <= retries
      invariant forall j | 0 <= j < i :: !attempts[j]
      invariant sleeps == if i == retries && 0 < i then i - 1 else i
    {
      if attempts[i] {
        assert a[i] && forall j | 0 <= j < i :: !a[j];
        TriesFirst(a, i);
        return true, i + 1, sleeps;
      }
      if i < retries - 1 {
        sleeps := sleeps + 1;
      }
      i := i + 1;
    }
    assert forall j | 0 <= j < retries :: !a[j];
    TriesNone(a);
    if retries == 0 {
      return false, 0, 0;
    }
    return false, retries, retries - 1;
  }

  /** The gettext mirror loop of build.py: try each URL in turn and stop at
      the first that downloads; failures are silent. */
  method TryMirrors(mirrors: seq<bool>) returns (fetched: bool, tries: nat)
    ensures fetched <==> exists i | 0 <= i < |mirrors| :: mirrors[i]
    ensures tries == Tries(mirrors)
  {
    tries := 0;
    fetched := false;
    while tries < |mirrors| && !fetched
      invariant 0 <= tries <= |mirrors|
      invariant fetched ==> 0 < tries && mirrors[tries - 1]
      invariant forall j | 0 <= j < tries - 1 :: !mirrors[j]
      invariant !fetched ==> forall j | 0 <= j < tries :: !mirrors[j]
    {
      assert forall j | 0 <= j < tries :: !mirrors[j];
      fetched := mirrors[tries];
      tries := tries + 1;
    }
    if fetched {
      TriesFirst(mirrors, tries - 1);
    } else {
      TriesNone(mirrors);
    }
  }

  /** A first success at index `k` makes `k + 1` tries. */
  lemma {:induction false} TriesFirst(a: seq<bool>, k: nat)
    requires k < |a| && a[k]
    requires forall j | 0 <= j < k :: !a[j]
    ensures Tries(a) == k + 1
  {
    if k > 0 {
      assert a[1..][k - 1] == a[k];
      TriesFirst(a[1..], k - 1);
    }
  }

  /** With no success every answer is tried. */
  lemma {:induction false} TriesNone(a: seq<bool>)
    requires forall j | 0 <= j < |a| :: !a[j]
    ensures Tries(a) == |a|
  {
    if |a| > 0 {
      TriesNone(a[1..]);
    }
  }

  // ---------------------------------------------------------------------
  // Tarball packages

  /** What matters of a package's source directory: whether it exists,
      whether it holds a `.git` (an old checkout), and whether it holds a
      `configure` script. */
  datatype SrcDir = SrcDir(present: bool, isRepo: bool, configured: bool)

  /** A directory unpacked from a release tarball: present, no `.git`, and
      with its `configure` script. */
  const Unpacked := SrcDir(true, false, true)

  /** The tarball step ended the run (sys.exit(1) or an escaping
      exception), or finished with `changed`, whether the tarball is on
      disk, and the new source directory. */
  datatype TarStep = Stopped | Ready(changed: bool, tarball: bool, dir: SrcDir)

  /** The tarball packages of build.py. */
  datatype LegacyTar = Gettext | Xz | Fftw

  /** gettext has three mirrors, xz and fftw one URL each. */
  function Mirrors(p: LegacyTar): nat
  {
    if p == Gettext then 3 else 1
  }

  /** Some mirror of `p` answers the download (answers past the package's
      mirror count are never asked). */
  predicate MirrorHit(p: LegacyTar, mirrors: seq<bool>)
  {
    exists i | 0 <= i < |mirrors| && i < Mirrors(p) :: mirrors[i]
  }

  /** The tarball branch of build.py: download the tarball when it is
      missing (stopping when it stays missing), discard an xz or fftw
      directory without `configure`, and unpack into a missing directory. */
  function TarballLegacy(p: LegacyTar, tarball: bool, mirrors: seq<bool>, dir: SrcDir): (t: TarStep)
    ensures t.Stopped? <==> !tarball && !MirrorHit(p, mirrors)
    ensures t.Ready? ==> t.tarball && t.dir.present
    ensures t.Ready? ==> (t.changed <==> !dir.present || (p != Gettext && !dir.configured))
    ensures t.Ready? && !t.changed ==> t.dir == dir
    ensures t.Ready? && p != Gettext ==> t.dir.configured
  {
    if !tarball && !MirrorHit(p, mirrors) then Stopped
    else
      var kept := if p != Gettext && dir.present && !dir.configured then SrcDir(false, false, false) else dir;
      if !kept.present then Ready(true, true, Unpacked) else Ready(false, true, kept)
  }

  /** The tarball branch of build_v2_clang.py: an old git checkout is
      discarded; a missing directory counts as changed and is unpacked from
      the tarball, downloaded with retries when it is missing. */
  function TarballClang(tarball: bool, attempts: seq<bool>, dir: SrcDir): (t: TarStep)
    ensures t.Stopped? <==> (!dir.present || dir.isRepo) && !tarball
                             && !exists i | 0 <= i < |attempts| && i < Retries :: attempts[i]
    ensures t.Ready? ==> t.dir.present && !t.dir.isRepo
    ensures t.Ready? ==> (t.changed <==> !dir.present || dir.isRepo)
    ensures t.Ready? && t.changed ==> t.tarball && t.dir == Unpacked
    ensures t.Ready? && !t.changed ==> t.dir == dir && t.tarball == tarball
  {
    var kept := if dir.isRepo then SrcDir(false, false, false) else dir;
    if kept.present then Ready(false, tarball, kept)
    else if !tarball && !exists i | 0 <= i < |attempts| && i < Retries :: attempts[i] then Stopped
    else Ready(true, true, Unpacked)
  }

  /** A second run over what the first left behind changes nothing and
      downloads nothing, in both scripts. */
  lemma {:induction false} TarballSettles(p: LegacyTar, tarball: bool, mirrors: seq<bool>, attempts: seq<bool>, dir: SrcDir)
    ensures TarballLegacy(p, tarball, mirrors, dir).Ready? ==>
              var t := TarballLegacy(p, tarball, mirrors, dir);
              TarballLegacy(p, t.tarball, [], t.dir) == Ready(false, true, t.dir)
    ensures TarballClang(tarball, attempts, dir).Ready? ==>
              var t := TarballClang(tarball, attempts, dir);
              TarballClang(t.tarball, [], t.dir) == Ready(false, t.tarball, t.dir)
  {
  }

  /** An unpacked source whose tarball was since deleted: the legacy
      script stops when the tarball cannot be fetched again, the Clang
      script carries on without touching the source. */
  lemma MissingTarballStopsOnlyLegacy(p: LegacyTar)
    ensures TarballLegacy(p, false, [], Unpacked).Stopped?
    ensures TarballClang(false, [], Unpacked) == Ready(false, false, Unpacked)
  {
  }
}
