/**
  Creating a recovery point (backend/backup/backup_service.go:98-302), and what restoring it later brings back.
 */
module Backup {
  import opened Common
  import opened Text
  import opened FileSystem
  import opened Storage
  import opened RecoveryPoint
  import opened ReconciliationStages
  import opened ReconciliationPass
  import opened Reconciliation
  import OfficeMirror
  import Offsite
  import TreeDigest
  import Restore

  datatype Failure =
    | NotConfigured | NoLiveFile | NoDirectory | DumpFailed | SnapshotFailed | HashFailed | NotIntact | MirrorFailed
    | NotWritten

  const POSTGRES := "postgres.sql"
  const SQLITE := "local.sqlite"

  function PostgresFile(cfg: Config, id: string): string {
    Join(PointDir(cfg, id), POSTGRES)
  }

  function SQLiteFile(cfg: Config, id: string): string {
    Join(PointDir(cfg, id), SQLITE)
  }

  /** The point, its mirror, the offsite root and the live file lie apart from each other. */
  predicate LaidOut(cfg: Config, id: string, live: string) {
    && Disjoint(PointDir(cfg, id), MirrorDir(cfg, id))
    && Outside(live, {PointDir(cfg, id), MirrorDir(cfg, id)})
    && (cfg.offsiteRoot != "" ==>
          && Disjoint(cfg.offsiteRoot, MirrorDir(cfg, id)) && Disjoint(cfg.offsiteRoot, PointDir(cfg, id))
          && !Under(cfg.offsiteRoot, live))
  }

  /** No file stands where the point needs a directory, no directory where it needs a file. */
  predicate RoomForPoint(cfg: Config, fs: FS, id: string) {
    && Passable(fs, PointDir(cfg, id))
    && !IsDir(fs, PostgresFile(cfg, id)) && !IsDir(fs, SQLiteFile(cfg, id)) && !IsDir(fs, ManifestPath(cfg, id))
  }

  /** Nothing but a failure keeps this point from being created. */
  predicate CanCreate(cfg: Config, fs: FS, id: string, live: string, dsn: bool, checks: bool, intact: bool) {
    && cfg.backupRoot != "" && dsn && live != "" && IsFile(fs, live) && (checks ==> intact)
    && RoomForPoint(cfg, fs, id) && OfficeMirror.RoomFor(fs, MirrorDir(cfg, id))
  }

  /** The place of the offsite copy is free. */
  predicate RoomOffsite(cfg: Config, fs: FS, id: string) {
    && cfg.offsiteRoot != "" && OffsiteDir(cfg, id) !in fs && NoFileAbove(fs, OffsiteDir(cfg, id))
    && !IsDir(fs, Offsite.MetadataPath(MirrorDir(cfg, id)))
  }

  /** The trees a new recovery point can change. */
  function NewTrees(cfg: Config, id: string): set<string> {
    {PointDir(cfg, id), MirrorDir(cfg, id)} + (if cfg.offsiteRoot == "" then {} else {cfg.offsiteRoot})
  }

  /** The files of a new point. */
  lemma FilesOfPoint(cfg: Config, id: string)
    ensures Below(PointDir(cfg, id), PostgresFile(cfg, id)) && Below(PointDir(cfg, id), SQLiteFile(cfg, id))
    ensures Below(PointDir(cfg, id), ManifestPath(cfg, id))
    ensures PostgresFile(cfg, id) != SQLiteFile(cfg, id)
    ensures ManifestPath(cfg, id) != SQLiteFile(cfg, id) && ManifestPath(cfg, id) != PostgresFile(cfg, id)
  {
    var dir := PointDir(cfg, id);
    JoinIsBelow(dir, POSTGRES);
    JoinIsBelow(dir, SQLITE);
    JoinIsBelow(dir, "manifest.json");
    assert PostgresFile(cfg, id)[|dir| + 1] == 'p' && SQLiteFile(cfg, id)[|dir| + 1] == 'l'
        && ManifestPath(cfg, id)[|dir| + 1] == 'm';
  }

  /** What the point holds once both stores are saved. */
  ghost predicate Saved(cfg: Config, id: string, fs: FS, script: string, image: Option<string>) {
    Read(fs, PostgresFile(cfg, id)) == Some(script) && Read(fs, SQLiteFile(cfg, id)) == image && image.Some?
  }

  /**
    What a successful Create promises: the point verifies and holds both stores as they were, and its mirror is sound.
   */
  ghost predicate Created(sha: Sha, json: Json, cfg: Config, before: FS, after: FS, id: string, live: string,
                          script: string, m: Manifest) {
    && Saved(cfg, id, after, script, Read(before, live))
    && m.id == id && m.postgres == "postgres.sql" && m.sqlite == "local.sqlite"
    && Verified(sha, json, cfg, after, id) == Some(m)
    && MirrorSound(sha, after, m)
    && (m.offsiteVerified || cfg.offsiteRoot == "" ==> Reconciled(sha, json, cfg, after, id, m))
  }

  /** What the manifest of a new point says of it. */
  ghost predicate Described(sha: Sha, cfg: Config, before: FS, id: string, live: string, script: string, now: int,
                            size: int, m: Manifest) {
    && m.id == id && m.createdAt == now && m.size == size && m.status == "verified"
    && m.postgresSHA == Sum(sha, script)
    && Read(before, live).Some? && m.sqliteSHA == Sum(sha, Read(before, live).value)
    && m.mirrorPath == MirrorDir(cfg, id) && m.mirrorVerified
    && m.offsiteRetentionUntil == now + cfg.retention
    && (m.offsiteVerified ==> m.offsitePath == OffsiteDir(cfg, id) && m.offsiteStatus == "verified")
    && (cfg.offsiteRoot == "" ==> !m.offsiteVerified && m.offsiteStatus == "not-configured" && m.offsitePath == "")
  }

  function SavedManifest(sha: Sha, id: string, now: int, script: string, image: string, size: int,
                         mirror: OfficeMirror.MirrorResult,
                         copy: Offsite.CopyResult): Manifest {
    Manifest(id, now, POSTGRES, SQLITE, Sum(sha, script), Sum(sha, image), size, "verified",
             mirror.path, mirror.sum, true,
             copy.provider, copy.status, copy.path, copy.sum, copy.retentionUntil, copy.verified)
  }

  // ---------------------------------------------------------------- saving both stores

  /** Fills the directory of a new point: the dump, the copy of the live file, the check of that copy. */
  method FillPoint(disk: Disk, dir: string, pg: string, sq: string, live: string, script: string, checks: bool,
                   intact: bool,
                   ghost base: FS) returns (failed: Option<Failure>)
    requires Kept(base, disk.fs, {dir}) && Below(dir, pg) && Below(dir, sq) && pg != sq && Outside(live, {dir})
    modifies disk`fs
    ensures Kept(base, disk.fs, {dir})
    ensures failed.None? ==>
              Read(disk.fs, pg) == Some(script) && Read(disk.fs, sq) == Read(base, live) && IsFile(base, live)
    ensures (disk.calm && IsFile(base, live) && (checks ==> intact) && Writable(old(disk.fs), pg)
             && Writable(old(disk.fs), sq)) ==> failed.None?
    ensures forall q {:trigger IsDir(disk.fs, q)} :: IsDir(disk.fs, q) ==> IsDir(old(disk.fs), q)
    ensures failed.None? ==> forall q {:trigger IsDir(disk.fs, q)} :: IsDir(old(disk.fs), q) ==> IsDir(disk.fs, q)
  {
    ghost var before := disk.fs;
    var ok := disk.WriteFile(pg, script, PRIVATE_FILE, base, {dir});
    if !ok {
      return Some(DumpFailed);
    }
    if Writable(before, sq) {
      OfficeMirror.FileKeepsDirs(before, disk.fs, pg);
      OfficeMirror.StillWritable(before, disk.fs, sq);
    }
    FileKept(base, disk.fs, {dir}, live);
    ok := disk.CopyFile(live, sq, base, {dir});
    if !ok {
      return Some(SnapshotFailed);
    }
    var unreadable := disk.Fault();
    if unreadable {
      return Some(HashFailed);
    }
    if checks && !intact {
      return Some(NotIntact);
    }
    failed := None;
  }

  /** The first half of Create; whatever fails, the new directory is removed again. */
  method SaveStores(disk: Disk, cfg: Config, id: string, live: string, script: string, checks: bool, intact: bool)
      returns (failed: Option<Failure>)
    requires Outside(live, {PointDir(cfg, id)})
    modifies disk`fs
    ensures Kept(old(disk.fs), disk.fs, {PointDir(cfg, id)})
    ensures failed.None? ==> Saved(cfg, id, disk.fs, script, Read(old(disk.fs), live))
    ensures (disk.calm && IsFile(old(disk.fs), live) && RoomForPoint(cfg, old(disk.fs), id)
             && (checks ==> intact)) ==> failed.None?
    ensures disk.calm && failed.None? ==> DirsNear(old(disk.fs), disk.fs, PointDir(cfg, id))
    ensures failed.None? ==> IsDir(disk.fs, PointDir(cfg, id))
    ensures (disk.calm && failed.None? && RoomForPoint(cfg, old(disk.fs), id)) ==>
              !IsDir(disk.fs, ManifestPath(cfg, id))
  {
    hide *;
    ghost var before := disk.fs;
    var dir := PointDir(cfg, id);
    FilesOfPoint(cfg, id);
    InItself(dir);
    KeptNothing(before, {dir});
    if RoomForPoint(cfg, before, id) {
      PointIsPassable(cfg, before, id);
    }
    var ok := disk.MkdirAll(dir, PRIVATE_DIR, before, {dir});
    if !ok {
      return Some(NoDirectory);
    }
    ghost var made := disk.fs;
    if RoomForPoint(cfg, before, id) {
      StoresAreWritable(cfg, before, made, id);
    }
    PointIsMade(before, made, dir);
    failed := FillPoint(disk, dir, PostgresFile(cfg, id), SQLiteFile(cfg, id), live, script, checks, intact, before);
    if failed.Some? {
      var cleared := disk.RemoveAll(dir, before, {dir});
      return;
    }
    IsSaved(cfg, id, before, disk.fs, live, script);
    SameAfterMade(before, made, disk.fs, dir, ManifestPath(cfg, id));
    if RoomForPoint(cfg, before, id) {
      NoManifestDirectory(cfg, before, id);
    }
  }

  lemma PointIsPassable(cfg: Config, fs: FS, id: string)
    requires RoomForPoint(cfg, fs, id)
    ensures Passable(fs, PointDir(cfg, id))
  {
    hide PointDir;
  }

  lemma NoManifestDirectory(cfg: Config, fs: FS, id: string)
    requires RoomForPoint(cfg, fs, id)
    ensures !IsDir(fs, ManifestPath(cfg, id))
  {
    hide ManifestPath;
  }

  /** Once its directory is there, the two artifacts of a point can be written. */
  lemma StoresAreWritable(cfg: Config, before: FS, made: FS, id: string)
    requires RoomForPoint(cfg, before, id) && made == Made(before, PointDir(cfg, id), PRIVATE_DIR)
    ensures Writable(made, PostgresFile(cfg, id)) && Writable(made, SQLiteFile(cfg, id))
  {
    var dir := PointDir(cfg, id);
    EntryIsRooted(made, dir, POSTGRES);
    EntryIsRooted(made, dir, SQLITE);
    FilesOfPoint(cfg, id);
  }

  lemma PointIsMade(before: FS, made: FS, dir: string)
    requires Passable(before, dir) && made == Made(before, dir, PRIVATE_DIR)
    ensures IsDir(made, dir) && forall q {:trigger IsDir(made, q)} :: IsDir(made, q) ==>
              IsDir(before, q) || Under(q, dir)
  {
  }

  /** Writing files into a new directory leaves directories as they are. */
  lemma SameAfterMade(before: FS, made: FS, after: FS, dir: string, p: string)
    requires forall q {:trigger IsDir(made, q)} :: IsDir(made, q) ==> IsDir(before, q) || Under(q, dir)
    requires forall q {:trigger IsDir(after, q)} :: IsDir(after, q) ==> IsDir(made, q)
    ensures DirsNear(before, after, dir)
    ensures Below(dir, p) && IsDir(after, p) ==> IsDir(before, p)
  {
    assert IsDir(after, p) ==> IsDir(made, p);
  }

  lemma IsSaved(cfg: Config, id: string, before: FS, after: FS, live: string, script: string)
    requires Read(after, PostgresFile(cfg, id)) == Some(script)
    requires Read(after, SQLiteFile(cfg, id)) == Read(before, live)
    requires IsFile(before, live)
    ensures Saved(cfg, id, after, script, Read(before, live))
  {
    hide PostgresFile, SQLiteFile;
  }

  // ---------------------------------------------------------------- putting it together

  lemma PointIsOutside(cfg: Config, id: string, p: string, root: string)
    requires Disjoint(PointDir(cfg, id), root) && Below(PointDir(cfg, id), p)
    ensures Outside(p, {root})
  {
    DisjointTrees(PointDir(cfg, id), root, p);
  }

  lemma SavedStays(cfg: Config, id: string, before: FS, after: FS, root: string, script: string, image: Option<string>)
    requires Saved(cfg, id, before, script, image) && Kept(before, after, {root}) && Disjoint(PointDir(cfg, id), root)
    ensures Saved(cfg, id, after, script, image)
  {
    hide PointDir;
    FilesOfPoint(cfg, id);
    PointIsOutside(cfg, id, PostgresFile(cfg, id), root);
    PointIsOutside(cfg, id, SQLiteFile(cfg, id), root);
    FileKept(before, after, {root}, PostgresFile(cfg, id));
    FileKept(before, after, {root}, SQLiteFile(cfg, id));
  }

  lemma SavedBesideManifest(cfg: Config, id: string, before: FS, after: FS, script: string, image: Option<string>)
    requires Saved(cfg, id, before, script, image) && Kept(before, after, {ManifestPath(cfg, id)})
    ensures Saved(cfg, id, after, script, image)
  {
    hide PointDir;
    var dir := PointDir(cfg, id);
    assert '/' !in POSTGRES && '/' !in SQLITE && '/' !in "manifest.json";
    assert POSTGRES[0] == 'p' && SQLITE[0] == 'l' && "manifest.json"[0] == 'm';
    Offsite.SiblingsDisjoint(dir, "manifest.json", POSTGRES);
    Offsite.SiblingsDisjoint(dir, "manifest.json", SQLITE);
    FileKept(before, after, {ManifestPath(cfg, id)}, PostgresFile(cfg, id));
    FileKept(before, after, {ManifestPath(cfg, id)}, SQLiteFile(cfg, id));
  }

  /** A manifest written over saved stores, with their sums, verifies. */
  lemma FreshVerifies(sha: Sha, json: Json, cfg: Config, fs: FS, id: string, script: string, image: Option<string>,
                      m: Manifest)
    requires RoundTrips(json) && id != "" && Saved(cfg, id, fs, script, image)
             && Read(fs, ManifestPath(cfg, id)) == Some(json.encode(m))
    requires m.postgres == POSTGRES && m.sqlite == SQLITE && m.status == "verified"
    requires m.postgresSHA == Sum(sha, script) && m.sqliteSHA == Sum(sha, image.value)
    ensures Verified(sha, json, cfg, fs, id) == Some(m)
  {
    hide Sum, Read, ManifestPath, Gated;
    assert StoredManifest(json, cfg, fs, id) == Some(m);
    FreshIsGated(sha, cfg, fs, id, script, image, m);
  }

  lemma FreshIsGated(sha: Sha, cfg: Config, fs: FS, id: string, script: string, image: Option<string>, m: Manifest)
    requires Saved(cfg, id, fs, script, image)
    requires m.postgres == POSTGRES && m.sqlite == SQLITE && m.status == "verified"
    requires m.postgresSHA == Sum(sha, script) && m.sqliteSHA == Sum(sha, image.value)
    ensures Gated(sha, cfg, fs, id, m) == Some(m)
  {
    hide Sum, Read;
    assert PostgresPath(cfg, id, m) == PostgresFile(cfg, id) && SQLitePath(cfg, id, m) == SQLiteFile(cfg, id);
  }

  lemma DigestIsNotBlank(sha: Sha, fs: FS, root: string, sum: string)
    requires DigestAt(sha, fs, root) == Some(sum)
    ensures !Blank(sum)
  {
    SumIsNotBlank(sha, TreeDigest.HexStream(sha, TreeDigest.Visible(Files(fs, root))));
  }

  /** The mirror of a new point after the offsite copy and the manifest write. */
  lemma FreshMirror(sha: Sha, json: Json, cfg: Config, id: string, live: string, fs2: FS, fs3: FS, fs4: FS, now: int,
                    m: Manifest, sum: string)
    requires LaidOut(cfg, id, live) && DigestAt(sha, fs2, MirrorDir(cfg, id)) == Some(sum)
    requires Kept(fs2, fs3, Offsite.CopyRoots(json, cfg, fs2, id, now)) && Kept(fs3, fs4, {ManifestPath(cfg, id)})
    requires m.mirrorVerified && m.mirrorPath == MirrorDir(cfg, id) && m.mirrorSHA == sum
    ensures MirrorSound(sha, fs4, m)
  {
    hide Kept, Blank, MirrorDir, ManifestPath, Disjoint, Apart, PointDir, Offsite.DoomedTrees, OffsiteDir,
        TreeDigest.Digest, Files;
    var dir := MirrorDir(cfg, id);
    if cfg.offsiteRoot == "" {
      NoCopyRoots(dir);
    } else {
      Offsite.ApartFromCopies(json, cfg, fs2, id, now, dir);
    }
    DigestKept(sha, fs2, fs3, Offsite.CopyRoots(json, cfg, fs2, id, now), dir);
    ManifestApart(cfg, id, dir);
    DigestKept(sha, fs3, fs4, {ManifestPath(cfg, id)}, dir);
    DigestIsNotBlank(sha, fs4, dir, sum);
    MirrorDirNotBlank(cfg, id);
  }

  lemma NoCopyRoots(dir: string)
    ensures Apart(dir, {})
  {
  }

  lemma MirrorDirNotBlank(cfg: Config, id: string)
    ensures !Blank(MirrorDir(cfg, id))
  {
    JoinIsNotBlank(cfg.mirrorRoot, id);
  }

  lemma ManifestApart(cfg: Config, id: string, other: string)
    requires Disjoint(PointDir(cfg, id), other)
    ensures Apart(other, {ManifestPath(cfg, id)})
  {
    hide Disjoint, PointDir;
    FilesOfPoint(cfg, id);
    DisjointFromInner(cfg, id, other);
  }

  lemma DisjointFromInner(cfg: Config, id: string, other: string)
    requires Disjoint(PointDir(cfg, id), other) && Below(PointDir(cfg, id), ManifestPath(cfg, id))
    ensures Disjoint(ManifestPath(cfg, id), other)
  {
    hide Disjoint;
    Offsite.DisjointFromInner(PointDir(cfg, id), ManifestPath(cfg, id), other);
  }

  /** The offsite copy of a new point after the manifest write. */
  lemma FreshCopy(sha: Sha, json: Json, cfg: Config, id: string, live: string, fs2: FS, fs3: FS, fs4: FS, now: int,
                  mirror: string,
                  copy: Offsite.CopyResult, m: Manifest)
    requires LaidOut(cfg, id, live) && Offsite.CopyOutcome(sha, json, cfg, fs2, fs3, false, id, mirror, now, copy)
    requires Kept(fs3, fs4, {ManifestPath(cfg, id)})
    requires m.offsiteProvider == copy.provider && m.offsiteStatus == copy.status && m.offsitePath == copy.path
    requires m.offsiteSHA == copy.sum && m.offsiteVerified == copy.verified
    requires copy.verified || cfg.offsiteRoot == ""
    ensures OffsiteSound(sha, cfg, fs4, m)
  {
    if cfg.offsiteRoot != "" {
      hide Kept, Blank, MirrorDir, ManifestPath, Disjoint, Apart, PointDir, OffsiteDir, TreeDigest.Digest, Files,
          Offsite.DoomedTrees, Outside,
           SealedTree, Offsite.MetadataText, Offsite.CopyRoots, Offsite.Gone;
      CopyIsApart(cfg, id, live);
      DigestKept(sha, fs3, fs4, {ManifestPath(cfg, id)}, copy.path);
      DigestIsNotBlank(sha, fs4, copy.path, copy.sum);
      OffsiteDirNotBlank(cfg, id);
    }
  }

  lemma OffsiteDirNotBlank(cfg: Config, id: string)
    ensures !Blank(OffsiteDir(cfg, id))
  {
    JoinIsNotBlank(cfg.offsiteRoot, id);
  }

  lemma CopyIsApart(cfg: Config, id: string, live: string)
    requires LaidOut(cfg, id, live) && cfg.offsiteRoot != ""
    ensures Apart(OffsiteDir(cfg, id), {ManifestPath(cfg, id)})
  {
    hide Disjoint, PointDir, Outside;
    JoinIsBelow(cfg.offsiteRoot, id);
    Offsite.DisjointFromInner(cfg.offsiteRoot, OffsiteDir(cfg, id), PointDir(cfg, id));
    DisjointSymmetric(OffsiteDir(cfg, id), PointDir(cfg, id));
    ManifestApart(cfg, id, OffsiteDir(cfg, id));
  }

  /** The stores stay saved while mirror, copy and manifest are written. */
  lemma SavedThroughout(json: Json, cfg: Config, id: string, live: string, fs1: FS, fs2: FS, fs3: FS, fs4: FS, now: int,
                        script: string, image: Option<string>)
    requires LaidOut(cfg, id, live) && Saved(cfg, id, fs1, script, image)
    requires Kept(fs1, fs2, {MirrorDir(cfg, id)}) && Kept(fs2, fs3, Offsite.CopyRoots(json, cfg, fs2, id, now))
    requires Kept(fs3, fs4, {ManifestPath(cfg, id)})
    ensures Saved(cfg, id, fs4, script, image)
  {
    hide Kept, Saved, ManifestPath, PointDir, Disjoint, MirrorDir;
    SavedStays(cfg, id, fs1, fs2, MirrorDir(cfg, id), script, image);
    if cfg.offsiteRoot == "" {
      KeptMore(fs2, fs3, {}, {MirrorDir(cfg, id)});
      SavedStays(cfg, id, fs2, fs3, MirrorDir(cfg, id), script, image);
    } else {
      CopiesInRoot(json, cfg, fs2, fs3, id, now);
      DisjointSymmetric(cfg.offsiteRoot, PointDir(cfg, id));
      SavedStays(cfg, id, fs2, fs3, cfg.offsiteRoot, script, image);
    }
    SavedBesideManifest(cfg, id, fs3, fs4, script, image);
  }

  lemma CopiesInRoot(json: Json, cfg: Config, fs: FS, after: FS, id: string, now: int)
    requires cfg.offsiteRoot != "" && Kept(fs, after, Offsite.CopyRoots(json, cfg, fs, id, now))
    ensures Kept(fs, after, {cfg.offsiteRoot})
  {
    forall r | r in Offsite.CopyRoots(json, cfg, fs, id, now)
      ensures !Outside(r, {cfg.offsiteRoot})
    {
      if r == OffsiteDir(cfg, id) {
        JoinIsBelow(cfg.offsiteRoot, id);
      } else {
        Offsite.DoomedIsInRoot(json, fs, cfg.offsiteRoot, now, r);
      }
    }
    KeptCovered(fs, after, Offsite.CopyRoots(json, cfg, fs, id, now), {cfg.offsiteRoot});
  }

  lemma NewFrame(json: Json, cfg: Config, id: string, fs0: FS, fs1: FS, fs2: FS, fs3: FS, fs4: FS, now: int)
    requires Kept(fs0, fs1, {PointDir(cfg, id)}) && Kept(fs1, fs2, {MirrorDir(cfg, id)})
    requires Kept(fs2, fs3, Offsite.CopyRoots(json, cfg, fs2, id, now)) && Kept(fs3, fs4, {PointDir(cfg, id)})
    ensures Kept(fs0, fs4, NewTrees(cfg, id))
  {
    hide Kept, PointDir, MirrorDir;
    var all := NewTrees(cfg, id);
    KeptMore(fs0, fs1, {PointDir(cfg, id)}, all);
    KeptMore(fs1, fs2, {MirrorDir(cfg, id)}, all);
    if cfg.offsiteRoot != "" {
      CopiesInRoot(json, cfg, fs2, fs3, id, now);
      KeptMore(fs2, fs3, {cfg.offsiteRoot}, all);
    } else {
      KeptMore(fs2, fs3, {}, all);
    }
    KeptMore(fs3, fs4, {PointDir(cfg, id)}, all);
    KeptTransitive(fs0, fs1, fs2, all);
    KeptTransitive(fs0, fs2, fs3, all);
    KeptTransitive(fs0, fs3, fs4, all);
  }

  lemma ManifestInPoint(cfg: Config, id: string, fs: FS, after: FS)
    requires Kept(fs, after, {ManifestPath(cfg, id)})
    ensures Kept(fs, after, {PointDir(cfg, id)})
  {
    FilesOfPoint(cfg, id);
    KeptCovered(fs, after, {ManifestPath(cfg, id)}, {PointDir(cfg, id)});
  }

  /** All four writes together. */
  lemma NewPointIsSound(sha: Sha, json: Json, cfg: Config, id: string, live: string, fs0: FS, fs1: FS, fs2: FS,
                        fs3: FS, fs4: FS, now: int,
                        script: string, size: int, mirror: OfficeMirror.MirrorResult, copy: Offsite.CopyResult)
    requires RoundTrips(json) && id != "" && LaidOut(cfg, id, live)
    requires Saved(cfg, id, fs1, script, Read(fs0, live)) && Kept(fs1, fs2, {MirrorDir(cfg, id)})
    requires mirror.path == MirrorDir(cfg, id) && DigestAt(sha, fs2, MirrorDir(cfg, id)) == Some(mirror.sum)
    requires Offsite.CopyOutcome(sha, json, cfg, fs2, fs3, false, id, mirror.path, now, copy)
    requires Read(fs0, live).Some?
    requires ManifestWritten(json, cfg, id, SavedManifest(sha, id, now, script, Read(fs0, live).value, size, mirror,
             copy), fs3, fs4)
    ensures Created(sha, json, cfg, fs0, fs4, id, live, script,
            SavedManifest(sha, id, now, script, Read(fs0, live).value, size, mirror, copy))
  {
    hide *;
    var m := SavedManifest(sha, id, now, script, Read(fs0, live).value, size, mirror, copy);
    Offsite.CopyOutcomeFacts(sha, json, cfg, fs2, fs3, false, id, mirror.path, now, copy);
    WrittenFrame(json, cfg, id, m, fs3, fs4);
    SavedThroughout(json, cfg, id, live, fs1, fs2, fs3, fs4, now, script, Read(fs0, live));
    ManifestFields(sha, id, now, script, Read(fs0, live).value, size, mirror, copy);
    FreshVerifies(sha, json, cfg, fs4, id, script, Read(fs0, live), m);
    FreshMirror(sha, json, cfg, id, live, fs2, fs3, fs4, now, m, mirror.sum);
    if copy.verified || cfg.offsiteRoot == "" {
      FreshCopy(sha, json, cfg, id, live, fs2, fs3, fs4, now, mirror.path, copy, m);
    }
    IsCreated(sha, json, cfg, fs0, fs4, id, live, script, m);
  }

  lemma ManifestFields(sha: Sha, id: string, now: int, script: string, image: string, size: int,
                       mirror: OfficeMirror.MirrorResult,
                       copy: Offsite.CopyResult)
    ensures var m := SavedManifest(sha, id, now, script, image, size, mirror, copy);
            && m.id == id && m.postgres == POSTGRES && m.sqlite == SQLITE && m.status == "verified"
            && m.postgresSHA == Sum(sha, script) && m.sqliteSHA == Sum(sha, image)
            && m.mirrorVerified && m.mirrorPath == mirror.path && m.mirrorSHA == mirror.sum
            && m.offsiteProvider == copy.provider && m.offsiteStatus == copy.status && m.offsitePath == copy.path
            && m.offsiteSHA == copy.sum && m.offsiteVerified == copy.verified
  {
    hide Sum;
  }

  lemma IsCreated(sha: Sha, json: Json, cfg: Config, fs0: FS, fs4: FS, id: string, live: string, script: string,
                  m: Manifest)
    requires Saved(cfg, id, fs4, script, Read(fs0, live)) && m.id == id && m.postgres == POSTGRES && m.sqlite == SQLITE
    requires Verified(sha, json, cfg, fs4, id) == Some(m) && MirrorSound(sha, fs4, m)
    requires Read(fs4, ManifestPath(cfg, id)) == Some(json.encode(m))
    requires m.offsiteVerified || cfg.offsiteRoot == "" ==> OffsiteSound(sha, cfg, fs4, m)
    ensures Created(sha, json, cfg, fs0, fs4, id, live, script, m)
  {
    hide Saved, Verified, MirrorSound, OffsiteSound, Read, ManifestPath;
  }

  /**
    Create.  `script` is what pg_dump --clean --if-exists writes, `intact` the answer of the SQLite integrity check.
    Whether it succeeds or fails, only the new point, its mirror and the offsite root can change.
   */
  method Create(s: Service, live: string, dsn: bool, script: string, checks: bool, intact: bool, id: string, now: int,
                size: int)
      returns (r: Result<Manifest, Failure>)
    requires ValidConfig(s.cfg) && RoundTrips(s.json) && id != "" && LaidOut(s.cfg, id, live)
    modifies s.disk`fs, s.timeline`events
    ensures Kept(old(s.disk.fs), s.disk.fs, NewTrees(s.cfg, id))
    ensures r.Ok? ==> Created(s.sha, s.json, s.cfg, old(s.disk.fs), s.disk.fs, id, live, script, r.value)
    ensures r.Ok? ==> Described(s.sha, s.cfg, old(s.disk.fs), id, live, script, now, size, r.value)
    ensures r.Err? ==> s.timeline.events == old(s.timeline.events)
    ensures s.disk.calm && CanCreate(s.cfg, old(s.disk.fs), id, live, dsn, checks, intact) ==>
              r.Ok? && (RoomOffsite(s.cfg, old(s.disk.fs), id) ==> r.value.offsiteVerified)
  {
    hide *;
    ghost var fs0 := s.disk.fs;
    CanCreateParts(s.cfg, fs0, id, live, dsn, checks, intact);
    var dir := PointDir(s.cfg, id);
    KeptNothing(fs0, {dir});
    KeptNothing(fs0, {MirrorDir(s.cfg, id)});
    if s.cfg.backupRoot == "" || !dsn || live == "" {
      KeptNothing(fs0, NewTrees(s.cfg, id));
      return Err(NotConfigured);
    }
    var unavailable := s.disk.Fault();
    if unavailable || live !in s.disk.fs {
      KeptNothing(fs0, NewTrees(s.cfg, id));
      return Err(NoLiveFile);
    }
    LiveIsOutside(s.cfg, id, live);
    var failed := SaveStores(s.disk, s.cfg, id, live, script, checks, intact);
    ghost var fs1 := s.disk.fs;
    KeptNothing(fs1, {MirrorDir(s.cfg, id)});
    KeptNothing(fs1, Offsite.CopyRoots(s.json, s.cfg, fs1, id, now));
    KeptNothing(fs1, {dir});
    NewFrame(s.json, s.cfg, id, fs0, fs1, fs1, fs1, fs1, now);
    if failed.Some? {
      return Err(failed.value);
    }
    if s.disk.calm && CanCreate(s.cfg, fs0, id, live, dsn, checks, intact) {
      StillRoom(s.cfg, id, live, fs0, fs1);
    }
    r := Publish(s, live, script, id, now, size, fs0);
  }

  lemma CanCreateParts(cfg: Config, fs: FS, id: string, live: string, dsn: bool, checks: bool, intact: bool)
    ensures CanCreate(cfg, fs, id, live, dsn, checks, intact) ==>
              && cfg.backupRoot != "" && dsn && live != "" && IsFile(fs, live) && live in fs && (checks ==> intact)
              && RoomForPoint(cfg, fs, id) && OfficeMirror.RoomFor(fs, MirrorDir(cfg, id))
  {
    hide RoomForPoint, OfficeMirror.RoomFor, MirrorDir;
  }

  /** What stands nowhere near the point is as clear after its stores are saved as before. */
  lemma StillRoom(cfg: Config, id: string, live: string, fs0: FS, fs1: FS)
    requires LaidOut(cfg, id, live) && Kept(fs0, fs1, {PointDir(cfg, id)}) && DirsNear(fs0, fs1, PointDir(cfg, id))
    ensures OfficeMirror.RoomFor(fs0, MirrorDir(cfg, id)) ==> OfficeMirror.RoomFor(fs1, MirrorDir(cfg, id))
    ensures RoomOffsite(cfg, fs0, id) ==> RoomOffsite(cfg, fs1, id)
  {
    hide *;
    Layout(cfg, id, live);
    if OfficeMirror.RoomFor(fs0, MirrorDir(cfg, id)) {
      RoomBeside(fs0, fs1, PointDir(cfg, id), MirrorDir(cfg, id));
    }
    if RoomOffsite(cfg, fs0, id) {
      RoomOffsiteParts(cfg, fs0, id);
      DisjointSymmetric(cfg.offsiteRoot, PointDir(cfg, id));
      PlaceStaysFree(fs0, fs1, PointDir(cfg, id), cfg.offsiteRoot, OffsiteDir(cfg, id));
      MetadataInMirror(cfg, id);
      NoNewDirApart(fs0, fs1, PointDir(cfg, id), MirrorDir(cfg, id), Offsite.MetadataPath(MirrorDir(cfg, id)));
      IsRoomOffsite(cfg, fs1, id);
    }
  }

  lemma Layout(cfg: Config, id: string, live: string)
    requires LaidOut(cfg, id, live)
    ensures Disjoint(PointDir(cfg, id), MirrorDir(cfg, id))
    ensures cfg.offsiteRoot != "" ==>
              && Disjoint(cfg.offsiteRoot, MirrorDir(cfg, id)) && Disjoint(cfg.offsiteRoot, PointDir(cfg, id))
              && Under(cfg.offsiteRoot, OffsiteDir(cfg, id))
  {
    hide Disjoint, PointDir, MirrorDir, Outside;
    JoinIsBelow(cfg.offsiteRoot, id);
  }

  lemma RoomOffsiteParts(cfg: Config, fs: FS, id: string)
    requires RoomOffsite(cfg, fs, id)
    ensures cfg.offsiteRoot != "" && OffsiteDir(cfg, id) !in fs && NoFileAbove(fs, OffsiteDir(cfg, id))
    ensures !IsDir(fs, Offsite.MetadataPath(MirrorDir(cfg, id)))
  {
    hide OffsiteDir, NoFileAbove, IsDir, MirrorDir;
  }

  lemma IsRoomOffsite(cfg: Config, fs: FS, id: string)
    requires cfg.offsiteRoot != "" && OffsiteDir(cfg, id) !in fs && NoFileAbove(fs, OffsiteDir(cfg, id))
    requires !IsDir(fs, Offsite.MetadataPath(MirrorDir(cfg, id)))
    ensures RoomOffsite(cfg, fs, id)
  {
    hide OffsiteDir, NoFileAbove, IsDir, MirrorDir;
  }

  lemma MetadataInMirror(cfg: Config, id: string)
    ensures Under(MirrorDir(cfg, id), Offsite.MetadataPath(MirrorDir(cfg, id)))
  {
    JoinIsBelow(MirrorDir(cfg, id), TreeDigest.METADATA);
  }

  /** A path in a tree apart from what changed is no more taken and no less clear than before. */
  lemma PlaceStaysFree(a: FS, b: FS, changed: string, other: string, p: string)
    requires Kept(a, b, {changed}) && DirsNear(a, b, changed) && Disjoint(changed, other) && Under(other, p)
    ensures p !in a ==> p !in b
    ensures NoFileAbove(a, p) ==> NoFileAbove(b, p)
    ensures !IsFile(a, p) ==> !IsFile(b, p)
  {
    DisjointTrees(other, changed, p) by { DisjointSymmetric(changed, other); }
    assert Outside(p, {changed});
    assert KeptAt(a, b, p);
    NoNewDirApart(a, b, changed, other, p);
    if NoFileAbove(a, p) {
      Offsite.DisjointFromInner(other, p, changed);
      NoFileAboveKept(a, b, {changed}, p);
    }
  }

  lemma RoomBeside(a: FS, b: FS, changed: string, dir: string)
    requires Kept(a, b, {changed}) && DirsNear(a, b, changed) && Disjoint(changed, dir) && OfficeMirror.RoomFor(a, dir)
    ensures OfficeMirror.RoomFor(b, dir)
  {
    hide Kept, DirsNear, Disjoint, NoFileAbove, IsFile, IsDir, OfficeMirror.CodeDir, OfficeMirror.DataDir, Below,
        OfficeMirror.TemporaryArchive;
    MirrorPaths(dir);
    PlaceStaysFree(a, b, changed, dir, OfficeMirror.CodeDir(dir));
    PlaceStaysFree(a, b, changed, dir, OfficeMirror.DataDir(dir));
    NoNewDirApart(a, b, changed, dir, OfficeMirror.TemporaryArchive(dir));
    forall n | n in OfficeMirror.NAMES
      ensures !IsDir(b, Join(dir, n))
    {
      JoinIsBelow(dir, n);
      NoNewDirApart(a, b, changed, dir, Join(dir, n));
    }
  }

  lemma MirrorPaths(dir: string)
    ensures Under(dir, OfficeMirror.CodeDir(dir)) && Under(dir, OfficeMirror.DataDir(dir))
    ensures Under(dir, OfficeMirror.TemporaryArchive(dir))
  {
    OfficeMirror.Layout(dir);
  }

  lemma LiveIsOutside(cfg: Config, id: string, live: string)
    requires LaidOut(cfg, id, live)
    ensures Outside(live, {PointDir(cfg, id)})
  {
    hide PointDir, MirrorDir, Under, Disjoint;
  }

  lemma StoresOutsideMirror(cfg: Config, id: string, live: string)
    requires LaidOut(cfg, id, live)
    ensures Outside(PostgresFile(cfg, id), {MirrorDir(cfg, id)}) && Outside(SQLiteFile(cfg, id), {MirrorDir(cfg, id)})
    ensures cfg.offsiteRoot != "" ==> Disjoint(cfg.offsiteRoot, MirrorDir(cfg, id))
  {
    hide PointDir, MirrorDir, Under, Disjoint, Outside;
    FilesOfPoint(cfg, id);
    PointIsOutside(cfg, id, PostgresFile(cfg, id), MirrorDir(cfg, id));
    PointIsOutside(cfg, id, SQLiteFile(cfg, id), MirrorDir(cfg, id));
  }

  lemma SumsOf(cfg: Config, id: string, fs: FS, script: string, image: Option<string>)
    requires Saved(cfg, id, fs, script, image)
    ensures Read(fs, PostgresFile(cfg, id)) == Some(script) && Read(fs, SQLiteFile(cfg, id)) == image && image.Some?
  {
    hide Read, PostgresFile, SQLiteFile;
  }

  /** Mirror, offsite copy and manifest of a point whose stores are saved. */
  method Publish(s: Service, live: string, script: string, id: string, now: int, size: int,
                 ghost fs0: FS) returns (r: Result<Manifest, Failure>)
    requires ValidConfig(s.cfg) && RoundTrips(s.json) && id != "" && LaidOut(s.cfg, id, live)
    requires Saved(s.cfg, id, s.disk.fs, script, Read(fs0, live)) && Kept(fs0, s.disk.fs, {PointDir(s.cfg, id)})
    modifies s.disk`fs, s.timeline`events
    ensures Kept(fs0, s.disk.fs, NewTrees(s.cfg, id))
    ensures r.Ok? ==> Created(s.sha, s.json, s.cfg, fs0, s.disk.fs, id, live, script, r.value)
    ensures r.Ok? ==> Described(s.sha, s.cfg, fs0, id, live, script, now, size, r.value)
    ensures r.Err? ==> s.timeline.events == old(s.timeline.events)
    ensures (s.disk.calm && OfficeMirror.RoomFor(old(s.disk.fs), MirrorDir(s.cfg, id)) && IsDir(old(s.disk.fs),
             PointDir(s.cfg, id)) && !IsDir(old(s.disk.fs), ManifestPath(s.cfg, id))) ==>
              r.Ok? && (RoomOffsite(s.cfg, old(s.disk.fs), id) ==> r.value.offsiteVerified)
  {
    hide *;
    ghost var fs1 := s.disk.fs;
    var dir, pg, sq := PointDir(s.cfg, id), PostgresFile(s.cfg, id), SQLiteFile(s.cfg, id);
    SumsOf(s.cfg, id, fs1, script, Read(fs0, live));
    ReadMeansFile(fs1, pg);
    ReadMeansFile(fs1, sq);
    var image := Read(s.disk.fs, sq);
    StoresOutsideMirror(s.cfg, id, live);
    var mirror := OfficeMirror.CreateOfficeMirror(s.disk, s.sha, s.cfg, id, pg, sq);
    ghost var fs2 := s.disk.fs;
    KeptNothing(fs2, Offsite.CopyRoots(s.json, s.cfg, fs2, id, now));
    InItself(dir);
    KeptNothing(fs2, {dir});
    if mirror.None? {
      var cleared := s.disk.RemoveAll(dir, fs2, {dir});
      NewFrame(s.json, s.cfg, id, fs0, fs1, fs2, fs2, s.disk.fs, now);
      return Err(MirrorFailed);
    }
    r := PublishMirrored(s, live, script, image.value, id, now, size, mirror.value, fs0, fs1);
  }

  /** Offsite copy and manifest of a point whose mirror stands. */
  method PublishMirrored(s: Service, live: string, script: string, image: string, id: string, now: int, size: int,
                         mirror: OfficeMirror.MirrorResult, ghost fs0: FS, ghost fs1: FS)
      returns (r: Result<Manifest, Failure>)
    requires ValidConfig(s.cfg) && RoundTrips(s.json) && id != "" && LaidOut(s.cfg, id, live)
    requires Saved(s.cfg, id, fs1, script, Read(fs0, live)) && Read(fs0, live) == Some(image)
    requires Kept(fs0, fs1, {PointDir(s.cfg, id)}) && Kept(fs1, s.disk.fs, {MirrorDir(s.cfg, id)})
    requires mirror.path == MirrorDir(s.cfg, id) && OfficeMirror.OnlyNeeded(fs1, s.disk.fs, MirrorDir(s.cfg, id))
    requires DigestAt(s.sha, s.disk.fs, MirrorDir(s.cfg, id)) == Some(mirror.sum)
    modifies s.disk`fs, s.timeline`events
    ensures Kept(fs0, s.disk.fs, NewTrees(s.cfg, id))
    ensures r.Ok? ==> Created(s.sha, s.json, s.cfg, fs0, s.disk.fs, id, live, script, r.value)
    ensures r.Ok? ==> Described(s.sha, s.cfg, fs0, id, live, script, now, size, r.value)
    ensures r.Err? ==> s.timeline.events == old(s.timeline.events)
    ensures s.disk.calm && IsDir(fs1, PointDir(s.cfg, id)) && !IsDir(fs1, ManifestPath(s.cfg, id)) ==>
              r.Ok? && (RoomOffsite(s.cfg, fs1, id) ==> r.value.offsiteVerified)
  {
    hide *;
    ghost var fs2 := s.disk.fs;
    StoresOutsideMirror(s.cfg, id, live);
    var copy := Offsite.CreateOffsiteCopy(s.disk, s.sha, s.json, s.cfg, id, mirror.path, now);
    ghost var fs3 := s.disk.fs;
    AnyOutcome(s.sha, s.json, s.cfg, fs2, fs3, s.disk.calm, id, mirror.path, now, copy);
    var m := SavedManifest(s.sha, id, now, script, image, size, mirror, copy);
    ManifestFields(s.sha, id, now, script, image, size, mirror, copy);
    CopyFields(s.sha, s.json, s.cfg, fs2, fs3, s.disk.calm, id, mirror.path, now, copy);
    IsDescribed(s.sha, s.cfg, fs0, id, live, script, image, now, size, mirror, copy);
    if s.disk.calm {
      NothingInTheWay(s.sha, s.json, s.cfg, id, live, fs1, fs2, fs3, now, mirror);
    }
    r := WriteManifest(s, id, m, fs0, fs1, fs2, now);
    if r.Ok? {
      NewPointIsSound(s.sha, s.json, s.cfg, id, live, fs0, fs1, fs2, fs3, s.disk.fs, now, script, size, mirror, copy);
    }
  }

  lemma CopyFields(sha: Sha, json: Json, cfg: Config, before: FS, after: FS, calm: bool, id: string, mirror: string,
                   now: int, copy: Offsite.CopyResult)
    requires Offsite.CopyOutcome(sha, json, cfg, before, after, calm, id, mirror, now, copy)
    ensures copy.retentionUntil == now + cfg.retention
    ensures copy.verified ==> copy.path == OffsiteDir(cfg, id) && copy.status == "verified"
    ensures cfg.offsiteRoot == "" ==> !copy.verified && copy.status == "not-configured" && copy.path == ""
  {
    hide Kept, Offsite.GoodCopy, Offsite.DoomedTrees, Offsite.CopyRoots, OffsiteDir, Offsite.Copyable, Outside,
        Offsite.Gone, DirsNear, Offsite.AfterRetention;
  }

  lemma IsDescribed(sha: Sha, cfg: Config, before: FS, id: string, live: string, script: string, image: string,
                    now: int, size: int, mirror: OfficeMirror.MirrorResult, copy: Offsite.CopyResult)
    requires Read(before, live) == Some(image) && mirror.path == MirrorDir(cfg, id)
    requires copy.retentionUntil == now + cfg.retention
    requires copy.verified ==> copy.path == OffsiteDir(cfg, id) && copy.status == "verified"
    requires cfg.offsiteRoot == "" ==> !copy.verified && copy.status == "not-configured" && copy.path == ""
    ensures Described(sha, cfg, before, id, live, script, now, size,
                      SavedManifest(sha, id, now, script, image, size, mirror, copy))
  {
    hide Read, Sum, MirrorDir, OffsiteDir;
  }

  lemma NothingInTheWay(sha: Sha, json: Json, cfg: Config, id: string, live: string, fs1: FS, fs2: FS, fs3: FS,
                        now: int,
                        mirror: OfficeMirror.MirrorResult)
    requires LaidOut(cfg, id, live) && id != ""
    requires Kept(fs1, fs2, {MirrorDir(cfg, id)}) && OfficeMirror.OnlyNeeded(fs1, fs2, MirrorDir(cfg, id))
    requires DigestAt(sha, fs2, MirrorDir(cfg, id)) == Some(mirror.sum)
    requires Kept(fs2, fs3, Offsite.CopyRoots(json, cfg, fs2, id, now)) && DirsNear(fs2, fs3, OffsiteDir(cfg, id))
    requires cfg.offsiteRoot == "" ==> fs3 == fs2
    ensures IsDir(fs1, PointDir(cfg, id)) && !IsDir(fs1, ManifestPath(cfg, id)) ==> Writable(fs3, ManifestPath(cfg, id))
    ensures RoomOffsite(cfg, fs1, id) ==> Offsite.Copyable(cfg, fs2, id, MirrorDir(cfg, id))
  {
    hide *;
    DigestMeansDirectory(sha, fs2, MirrorDir(cfg, id));
    if IsDir(fs1, PointDir(cfg, id)) && !IsDir(fs1, ManifestPath(cfg, id)) {
      WayToManifest(json, cfg, id, live, fs1, fs2, fs3, now);
    }
    if RoomOffsite(cfg, fs1, id) {
      CopyCanBeMade(cfg, id, live, fs1, fs2);
    }
  }

  lemma AnyOutcome(sha: Sha, json: Json, cfg: Config, before: FS, after: FS, calm: bool, id: string, mirror: string,
                   now: int, copy: Offsite.CopyResult)
    requires Offsite.CopyOutcome(sha, json, cfg, before, after, calm, id, mirror, now, copy)
    ensures Offsite.CopyOutcome(sha, json, cfg, before, after, false, id, mirror, now, copy)
    ensures Kept(before, after, Offsite.CopyRoots(json, cfg, before, id, now))
    ensures calm ==> DirsNear(before, after, OffsiteDir(cfg, id))
    ensures calm && Offsite.Copyable(cfg, before, id, mirror) ==> copy.verified
    ensures cfg.offsiteRoot == "" ==> after == before
  {
    hide Kept, Offsite.GoodCopy, Offsite.DoomedTrees, Offsite.CopyRoots, OffsiteDir, Offsite.Copyable, Outside,
        Offsite.Gone, DirsNear;
  }

  lemma ReadMeansFile(fs: FS, p: string)
    ensures IsFile(fs, p) <==> Read(fs, p).Some?
  {
  }

  /** The mirror of a new point can be copied when there was room for the copy. */
  lemma CopyCanBeMade(cfg: Config, id: string, live: string, fs1: FS, fs2: FS)
    requires LaidOut(cfg, id, live) && id != "" && RoomOffsite(cfg, fs1, id)
    requires Kept(fs1, fs2, {MirrorDir(cfg, id)}) && OfficeMirror.OnlyNeeded(fs1, fs2, MirrorDir(cfg, id))
    requires IsDir(fs2, MirrorDir(cfg, id))
    ensures Offsite.Copyable(cfg, fs2, id, MirrorDir(cfg, id))
  {
    hide *;
    var dir, copy := MirrorDir(cfg, id), OffsiteDir(cfg, id);
    Layout(cfg, id, live);
    RoomOffsiteParts(cfg, fs1, id);
    NeededIsNear(fs1, fs2, dir);
    DisjointSymmetric(cfg.offsiteRoot, dir);
    PlaceStaysFree(fs1, fs2, dir, cfg.offsiteRoot, copy);
    MetadataIsNotNeeded(fs1, fs2, dir);
    NothingBelow(fs2, copy);
    IsCopyable(cfg, fs2, id);
  }

  lemma IsCopyable(cfg: Config, fs: FS, id: string)
    requires cfg.offsiteRoot != "" && id != "" && IsDir(fs, MirrorDir(cfg, id)) && !Exists(fs, OffsiteDir(cfg, id))
    requires !IsDir(fs, Offsite.MetadataPath(MirrorDir(cfg, id))) && NoFileAbove(fs, OffsiteDir(cfg, id))
    ensures Offsite.Copyable(cfg, fs, id, MirrorDir(cfg, id))
  {
    hide IsDir, Exists, NoFileAbove, OffsiteDir;
  }

  /** Neither the mirror nor the offsite copy comes in the way of the manifest. */
  lemma WayToManifest(json: Json, cfg: Config, id: string, live: string, fs1: FS, fs2: FS, fs3: FS, now: int)
    requires LaidOut(cfg, id, live) && IsDir(fs1, PointDir(cfg, id)) && !IsDir(fs1, ManifestPath(cfg, id))
    requires Kept(fs1, fs2, {MirrorDir(cfg, id)}) && OfficeMirror.OnlyNeeded(fs1, fs2, MirrorDir(cfg, id))
    requires Kept(fs2, fs3, Offsite.CopyRoots(json, cfg, fs2, id, now)) && DirsNear(fs2, fs3, OffsiteDir(cfg, id))
    requires cfg.offsiteRoot == "" ==> fs3 == fs2
    ensures Writable(fs3, ManifestPath(cfg, id))
  {
    hide *;
    var point, manifest := PointDir(cfg, id), ManifestPath(cfg, id);
    Layout(cfg, id, live);
    FilesOfPoint(cfg, id);
    BelowIsUnder(point, manifest);
    NeededIsNear(fs1, fs2, MirrorDir(cfg, id));
    DisjointSymmetric(point, MirrorDir(cfg, id));
    NoNewDirApart(fs1, fs2, MirrorDir(cfg, id), point, manifest);
    DirStays(fs1, fs2, MirrorDir(cfg, id), point);
    if cfg.offsiteRoot != "" {
      CopiesInRoot(json, cfg, fs2, fs3, id, now);
      DirStays(fs2, fs3, cfg.offsiteRoot, point);
      Offsite.DisjointFromInner(cfg.offsiteRoot, OffsiteDir(cfg, id), point);
      NoNewDirApart(fs2, fs3, OffsiteDir(cfg, id), point, manifest);
    }
    ManifestIsRooted(cfg, id, fs3);
    IsWritable(fs3, manifest);
  }

  lemma BelowIsUnder(root: string, p: string)
    requires Below(root, p)
    ensures Under(root, p)
  {
  }

  lemma IsWritable(fs: FS, p: string)
    requires Rooted(fs, p) && !IsDir(fs, p)
    ensures Writable(fs, p)
  {
  }

  lemma ManifestIsRooted(cfg: Config, id: string, fs: FS)
    requires IsDir(fs, PointDir(cfg, id))
    ensures Rooted(fs, ManifestPath(cfg, id))
  {
    EntryIsRooted(fs, PointDir(cfg, id), "manifest.json");
  }

  lemma DirStays(a: FS, b: FS, changed: string, dir: string)
    requires Kept(a, b, {changed}) && Disjoint(changed, dir) && IsDir(a, dir)
    ensures IsDir(b, dir)
  {
    assert Outside(dir, {changed});
    assert KeptAt(a, b, dir);
  }

  method WriteManifest(s: Service, id: string, m: Manifest, ghost fs0: FS, ghost fs1: FS, ghost fs2: FS,
                       ghost now: int) returns (r: Result<Manifest, Failure>)
    requires Kept(fs0, fs1, {PointDir(s.cfg, id)}) && Kept(fs1, fs2, {MirrorDir(s.cfg, id)})
    requires Kept(fs2, s.disk.fs, Offsite.CopyRoots(s.json, s.cfg, fs2, id, now))
    modifies s.disk`fs, s.timeline`events
    ensures Kept(fs0, s.disk.fs, NewTrees(s.cfg, id))
    ensures r.Ok? ==> r.value == m && ManifestWritten(s.json, s.cfg, id, m, old(s.disk.fs), s.disk.fs)
    ensures s.disk.calm && Writable(old(s.disk.fs), ManifestPath(s.cfg, id)) ==> r.Ok?
    ensures r.Err? ==> s.timeline.events == old(s.timeline.events)
  {
    hide *;
    ghost var fs3 := s.disk.fs;
    var dir, path := PointDir(s.cfg, id), ManifestPath(s.cfg, id);
    InItself(path);
    KeptNothing(fs3, {path});
    var ok := s.disk.WriteFile(path, s.json.encode(m), PRIVATE_FILE, fs3, {path});
    ghost var fs4 := s.disk.fs;
    ManifestInPoint(s.cfg, id, fs3, fs4);
    if !ok {
      InItself(dir);
      ok := s.disk.RemoveAll(dir, fs3, {dir});
      NewFrame(s.json, s.cfg, id, fs0, fs1, fs2, fs3, s.disk.fs, now);
      return Err(NotWritten);
    }
    WrittenIs(s.json, s.cfg, id, m, fs3, fs4);
    NewFrame(s.json, s.cfg, id, fs0, fs1, fs2, fs3, fs4, now);
    s.timeline.Record(id, "backup_created", "verified", "core");
    r := Ok(m);
  }

  // ---------------------------------------------------------------- what a new point is good for

  /** A pass over a point that has just been created, with its offsite copy, finds nothing to do. */
  lemma FreshPointNeedsNothing(sha: Sha, json: Json, cfg: Config, fs0: FS, fs1: FS, fs2: FS, id: string, live: string,
                          script: string,
                               m: Manifest, r: Result<Manifest, ReconciliationPass.Failure>)
    requires Created(sha, json, cfg, fs0, fs1, id, live, script, m) && (m.offsiteVerified || cfg.offsiteRoot == "")
             && !Blank(id)
    requires Outcome(sha, json, cfg, fs1, fs2, true, id, r)
    ensures r == Ok(m) && fs2 == fs1
  {
    hide Saved, MirrorSound, Reconciled, Verified, Touched, Kept, ArtifactsKept, Healable, SameCore;
  }

  /** An artifact with the recorded sum is the recorded artifact. */
  lemma SameSumSameContent(sha: Sha, fs: FS, p: string, content: string, inputs: set<string>)
    requires HashAt(sha, fs, p) == Some(Sum(sha, content)) && CollisionFree(sha, inputs) && content in inputs
    requires Read(fs, p).Some? ==> Read(fs, p).value in inputs
    ensures Read(fs, p) == Some(content)
  {
    hide CollisionFree;
    SumInjective(sha, inputs, Read(fs, p).value, content);
  }

  lemma GateMeansSums(m: Manifest, h: Option<string>, g: Option<string>)
    requires Gate(m, h, g).Some?
    ensures h == Some(m.postgresSHA) && g == Some(m.sqliteSHA)
  {
  }

  /**
    Whatever happened to the disk since: while the manifest keeps its core, a point that verifies holds what was saved.
   */
  lemma VerifiedIsOriginal(sha: Sha, json: Json, cfg: Config, fs0: FS, fs1: FS, fs2: FS, id: string, live: string,
                          script: string, image: string,
                           m: Manifest, later: Manifest, inputs: set<string>)
    requires Created(sha, json, cfg, fs0, fs1, id, live, script, m) && Read(fs0, live) == Some(image)
    requires Verified(sha, json, cfg, fs2, id) == Some(later) && SameCore(m, later)
    requires CollisionFree(sha, inputs) && script in inputs && image in inputs
    requires forall p :: p in {PostgresFile(cfg, id), SQLiteFile(cfg, id)} && Read(fs2, p).Some? ==>
             Read(fs2, p).value in inputs
    ensures Restore.ArtifactsOf(sha, json, cfg, fs2, id) == Some(Restore.Artifacts.Artifacts(script, image,
            later.postgresSHA, later.sqliteSHA))
  {
    hide *;
    SavedSums(sha, json, cfg, fs0, fs1, id, live, script, image, m);
    StatusIsVerified(sha, json, cfg, fs2, id, later);
    LaterSums(sha, cfg, fs2, id, script, image, m, later);
    var p, q := PostgresFile(cfg, id), SQLiteFile(cfg, id);
    assert p in {p, q} && q in {p, q};
    SameSumSameContent(sha, fs2, p, script, inputs);
    SameSumSameContent(sha, fs2, q, image, inputs);
    ArtifactsAre(sha, json, cfg, fs2, id, later, script, image);
  }

  lemma SavedSums(sha: Sha, json: Json, cfg: Config, fs0: FS, fs1: FS, id: string, live: string, script: string,
                  image: string, m: Manifest)
    requires Created(sha, json, cfg, fs0, fs1, id, live, script, m) && Read(fs0, live) == Some(image)
    ensures m.postgres == POSTGRES && m.sqlite == SQLITE && m.postgresSHA == Sum(sha, script)
            && m.sqliteSHA == Sum(sha, image)
  {
    hide MirrorSound, Reconciled, Verified, Sum, Gate, PointDir;
    StatusIsVerified(sha, json, cfg, fs1, id, m);
    assert PostgresPath(cfg, id, m) == PostgresFile(cfg, id) && SQLitePath(cfg, id, m) == SQLiteFile(cfg, id);
    GateMeansSums(m, HashAt(sha, fs1, PostgresFile(cfg, id)), HashAt(sha, fs1, SQLiteFile(cfg, id)));
  }

  lemma LaterSums(sha: Sha, cfg: Config, fs2: FS, id: string, script: string, image: string, m: Manifest,
                  later: Manifest)
    requires Gated(sha, cfg, fs2, id, later).Some? && SameCore(m, later)
    requires m.postgres == POSTGRES && m.sqlite == SQLITE && m.postgresSHA == Sum(sha, script)
             && m.sqliteSHA == Sum(sha, image)
    ensures HashAt(sha, fs2, PostgresFile(cfg, id)) == Some(Sum(sha, script))
            && HashAt(sha, fs2, SQLiteFile(cfg, id)) == Some(Sum(sha, image))
    ensures PostgresPath(cfg, id, later) == PostgresFile(cfg, id) && SQLitePath(cfg, id, later) == SQLiteFile(cfg, id)
  {
    hide Sum, Gate, PointDir, HashAt;
    assert PostgresPath(cfg, id, later) == PostgresFile(cfg, id) && SQLitePath(cfg, id, later) == SQLiteFile(cfg, id);
    GateMeansSums(later, HashAt(sha, fs2, PostgresFile(cfg, id)), HashAt(sha, fs2, SQLiteFile(cfg, id)));
  }

  lemma ArtifactsAre(sha: Sha, json: Json, cfg: Config, fs: FS, id: string, m: Manifest, script: string, image: string)
    requires Verified(sha, json, cfg, fs, id) == Some(m)
    requires PostgresPath(cfg, id, m) == PostgresFile(cfg, id) && SQLitePath(cfg, id, m) == SQLiteFile(cfg, id)
    requires Read(fs, PostgresFile(cfg, id)) == Some(script) && Read(fs, SQLiteFile(cfg, id)) == Some(image)
    ensures Restore.ArtifactsOf(sha, json, cfg, fs, id) == Some(Restore.Artifacts.Artifacts(script, image,
            m.postgresSHA, m.sqliteSHA))
  {
    hide Verified, Read, PostgresFile, SQLiteFile, PostgresPath, SQLitePath;
  }

  /**
    Create, then anything that keeps the core of the manifest, then a restore that succeeds: each selected store holds
    what it held when the point was created, and the other is untouched.
   */
  lemma RestoreBringsBack(sha: Sha, json: Json, cfg: Config, fs0: FS, fs1: FS, fs2: FS, id: string, live: string,
                          script: string, image: string,
                          m: Manifest, later: Manifest, inputs: set<string>, tools: Restore.Tools,
                              engine: Restore.Engine, w: Restore.World,
                          opts: Restore.Options, f: Restore.Faults, db: string)
    requires Created(sha, json, cfg, fs0, fs1, id, live, script, m) && Read(fs0, live) == Some(image)
    requires Verified(sha, json, cfg, fs2, id) == Some(later) && SameCore(m, later)
    requires CollisionFree(sha, inputs) && script in inputs && image in inputs
    requires forall p :: p in {PostgresFile(cfg, id), SQLiteFile(cfg, id)} && Read(fs2, p).Some? ==>
             Read(fs2, p).value in inputs
    requires forall now :: engine.load(now, script) == Some(db)
    requires Restore.Run(tools, engine, w, opts, Restore.ArtifactsOf(sha, json, cfg, fs2, id), f).1.Ok?
    ensures var after := Restore.Run(tools, engine, w, opts, Restore.ArtifactsOf(sha, json, cfg, fs2, id), f).0;
            && after.sqlite == (if opts.target != "postgres" then Some(image) else w.sqlite)
            && after.postgres == (if opts.target != "local" && tools.psql && tools.dsn then db else w.postgres)
  {
    hide *;
    VerifiedIsOriginal(sha, json, cfg, fs0, fs1, fs2, id, live, script, image, m, later, inputs);
    Restore.SuccessRestores(tools, engine, w, opts, Restore.ArtifactsOf(sha, json, cfg, fs2, id), f);
    assert engine.load(w.postgres, script) == Some(db);
  }
}
