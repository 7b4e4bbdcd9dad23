/** Building an office mirror from a recovery point (backend/backup/office_mirror.go:41-411). */
module OfficeMirror {
  import opened Common
  import opened Text
  import opened FileSystem
  import opened Storage
  import opened RecoveryPoint
  import TreeDigest

  datatype MirrorResult = MirrorResult(path: string, sum: string)

  function CodeDir(dir: string): string {
    Join(dir, "code")
  }

  function DataDir(dir: string): string {
    Join(dir, "data")
  }

  function MirrorPostgres(dir: string): string {
    Join(DataDir(dir), "postgres.sql")
  }

  function MirrorSQLite(dir: string): string {
    Join(DataDir(dir), "local.sqlite")
  }

  const ARCHIVE := "code/source.tar.gz"
  const POSTGRES := "data/postgres.sql"
  const SQLITE := "data/local.sqlite"
  const GUIDE := "RECOVERY.md"
  const MANIFEST := "manifest.json"

  /** The five files of a mirror. */
  const NAMES := {ARCHIVE, POSTGRES, SQLITE, GUIDE, MANIFEST}

  /** The names of the regular files of a tree. */
  function Names(fs: FS, dir: string): set<string> {
    Files(fs, dir).Keys
  }

  lemma PathsByName(dir: string)
    ensures Join(CodeDir(dir), "source.tar.gz") == Join(dir, ARCHIVE)
    ensures MirrorPostgres(dir) == Join(dir, POSTGRES) && MirrorSQLite(dir) == Join(dir, SQLITE)
  {
    assert "code" + "/" + "source.tar.gz" == ARCHIVE;
    assert "data" + "/" + "postgres.sql" == POSTGRES && "data" + "/" + "local.sqlite" == SQLITE;
    assert Join(Join(dir, "code"), "source.tar.gz") == Join(dir, "code" + "/" + "source.tar.gz");
    assert Join(Join(dir, "data"), "postgres.sql") == Join(dir, "data" + "/" + "postgres.sql");
    assert Join(Join(dir, "data"), "local.sqlite") == Join(dir, "data" + "/" + "local.sqlite");
  }

  lemma Layout(dir: string)
    ensures Below(dir, CodeDir(dir)) && Below(dir, DataDir(dir))
    ensures Below(dir, MirrorPostgres(dir)) && Below(dir, MirrorSQLite(dir))
    ensures forall name :: Below(dir, Join(CodeDir(dir), name)) && Below(dir, Join(dir, name))
  {
    JoinIsBelow(dir, "code");
    JoinIsBelow(dir, "data");
    JoinIsBelow(DataDir(dir), "postgres.sql");
    JoinIsBelow(DataDir(dir), "local.sqlite");
    BelowTransitive(dir, DataDir(dir), MirrorPostgres(dir));
    BelowTransitive(dir, DataDir(dir), MirrorSQLite(dir));
    forall name
      ensures Below(dir, Join(CodeDir(dir), name)) && Below(dir, Join(dir, name))
    {
      JoinIsBelow(dir, name);
      JoinIsBelow(CodeDir(dir), name);
      BelowTransitive(dir, CodeDir(dir), Join(CodeDir(dir), name));
    }
  }

  lemma NamesDiffer(dir: string)
    ensures MirrorPostgres(dir) != MirrorSQLite(dir)
    ensures Join(dir, "RECOVERY.md") != MirrorPostgres(dir) && Join(dir, "RECOVERY.md") != MirrorSQLite(dir)
    ensures Join(dir, "manifest.json") != MirrorPostgres(dir) && Join(dir, "manifest.json") != MirrorSQLite(dir)
  {
    var n := |dir| + 1;
    assert Join(dir, "RECOVERY.md")[n] == 'R' && Join(dir, "manifest.json")[n] == 'm';
    assert MirrorPostgres(dir)[n] == 'd' && MirrorSQLite(dir)[n] == 'd';
    assert MirrorPostgres(dir)[n + 5] == 'p' && MirrorSQLite(dir)[n + 5] == 'l';
  }

  /** Directories are where they were. */
  ghost predicate SameDirs(a: FS, b: FS) {
    forall q {:trigger IsDir(b, q)} :: IsDir(a, q) == IsDir(b, q)
  }

  lemma FileKeepsDirs(a: FS, b: FS, p: string)
    requires !IsDir(a, p) && IsFile(b, p) && b == a[p := b[p]]
    ensures SameDirs(a, b)
  {
  }

  /** No directory is lost, and none is made but the code and data directories and what is above them. */
  ghost predicate OnlyNeeded(a: FS, b: FS, dir: string) {
    forall q {:trigger IsDir(b, q)} ::
      && (IsDir(a, q) ==> IsDir(b, q))
      && (IsDir(b, q) ==> IsDir(a, q) || Under(q, CodeDir(dir)) || Under(q, DataDir(dir)))
  }

  lemma NeededThenSame(a: FS, b: FS, c: FS, dir: string)
    requires OnlyNeeded(a, b, dir) && SameDirs(b, c)
    ensures OnlyNeeded(a, c, dir)
  {
    hide Under, CodeDir, DataDir;
    forall q
      ensures IsDir(a, q) ==> IsDir(c, q)
      ensures IsDir(c, q) ==> IsDir(a, q) || Under(q, CodeDir(dir)) || Under(q, DataDir(dir))
    {
      assert IsDir(b, q) == IsDir(c, q);
    }
  }

  lemma SameDirsTransitive(a: FS, b: FS, c: FS)
    requires SameDirs(a, b) && SameDirs(b, c)
    ensures SameDirs(a, c)
  {
    forall q
      ensures IsDir(a, q) == IsDir(c, q)
    {
      assert IsDir(a, q) == IsDir(b, q);
    }
  }

  /** The directory a mirror's archive is written in, and no directory where one of its files goes. */
  predicate Ready(fs: FS, dir: string) {
    IsDir(fs, CodeDir(dir)) && IsDir(fs, DataDir(dir)) && NamesFree(fs, dir)
  }

  predicate NamesFree(fs: FS, dir: string) {
    (forall n :: n in NAMES ==> !IsDir(fs, Join(dir, n))) && !IsDir(fs, TemporaryArchive(dir))
  }

  function TemporaryArchive(dir: string): string {
    Join(CodeDir(dir), "source.tar.gz") + ".tmp"
  }

  lemma ReadySame(a: FS, b: FS, dir: string)
    requires Ready(a, dir) && SameDirs(a, b)
    ensures Ready(b, dir)
  {
  }

  /** Each file of a mirror can be written once its directories are there. */
  lemma ReadyIsWritable(fs: FS, dir: string)
    requires Ready(fs, dir)
    ensures forall n :: n in NAMES ==> Writable(fs, Join(dir, n))
    ensures Writable(fs, TemporaryArchive(dir))
  {
    PathsByName(dir);
    JoinIsBelow(dir, "code");
    AboveIsDir(fs, CodeDir(dir), dir);
    EntryIsRooted(fs, CodeDir(dir), "source.tar.gz");
    EntryIsRooted(fs, CodeDir(dir), "source.tar.gz" + ".tmp");
    assert TemporaryArchive(dir) == Join(CodeDir(dir), "source.tar.gz" + ".tmp");
    EntryIsRooted(fs, DataDir(dir), "postgres.sql");
    EntryIsRooted(fs, DataDir(dir), "local.sqlite");
    EntryIsRooted(fs, dir, GUIDE);
    EntryIsRooted(fs, dir, MANIFEST);
  }

  /** gitArchive: the archive, whatever it holds, is written beside its place and then moved there. */
  method GitArchive(disk: Disk, target: string, ghost base: FS, ghost roots: set<string>) returns (ok: bool)
    requires Kept(base, disk.fs, roots) && !Outside(target, roots) && !Outside(target + ".tmp", roots)
    modifies disk`fs
    ensures ok ==> SameDirs(old(disk.fs), disk.fs)
    ensures ok ==> !IsDir(old(disk.fs), target) && !IsDir(old(disk.fs), target + ".tmp")
    ensures Kept(base, disk.fs, roots)
    ensures ok ==> forall p :: p != target && p != target + ".tmp" ==>
              (p in disk.fs <==> p in old(disk.fs)) && (p in disk.fs ==> disk.fs[p] == old(disk.fs)[p])
    ensures ok ==> IsFile(disk.fs, target) && target + ".tmp" !in disk.fs
    ensures disk.calm && Writable(old(disk.fs), target) && Writable(old(disk.fs), target + ".tmp") ==> ok
  {
    ghost var before := disk.fs;
    var archive: string := *;
    var temp := target + ".tmp";
    ok := disk.WriteFile(temp, archive, PRIVATE_FILE, base, roots);
    if !ok {
      return;
    }
    FileKeepsDirs(before, disk.fs, temp);
    if Writable(before, target) {
      StillWritable(before, disk.fs, target);
    }
    ok := disk.Rename(temp, target, base, roots);
  }

  lemma StillWritable(a: FS, b: FS, p: string)
    requires Writable(a, p) && SameDirs(a, b)
    ensures Writable(b, p)
  {
    forall k | 0 <= k < |p| && p[k] == '/'
      ensures p[..k] in b && b[p[..k]].Dir?
    {
      assert IsDir(a, p[..k]) == IsDir(b, p[..k]);
    }
  }

  /** The two artifacts in a mirror. */
  function Held(fs: FS, dir: string): (Option<string>, Option<string>) {
    (Read(fs, MirrorPostgres(dir)), Read(fs, MirrorSQLite(dir)))
  }

  /** Copies both artifacts. */
  method CopyArtifacts(disk: Disk, dir: string, postgresFile: string, sqliteFile: string, ghost base: FS)
      returns (ok: bool)
    requires Kept(base, disk.fs, {dir})
    requires Outside(postgresFile, {dir}) && Outside(sqliteFile, {dir})
    modifies disk`fs
    ensures Kept(base, disk.fs, {dir})
    ensures ok ==> Held(disk.fs, dir) == (Read(base, postgresFile), Read(base, sqliteFile))
    ensures ok && IsDir(old(disk.fs), dir) ==> IsDir(disk.fs, dir)
    ensures ok ==> SameDirs(old(disk.fs), disk.fs)
    ensures ok ==> Names(disk.fs, dir) == Names(old(disk.fs), dir) + {POSTGRES} + {SQLITE}
    ensures ok ==> IsFile(base, postgresFile) && IsFile(base, sqliteFile)
    ensures ok ==> !IsDir(old(disk.fs), Join(dir, POSTGRES)) && !IsDir(old(disk.fs), Join(dir, SQLITE))
    ensures disk.calm && Ready(old(disk.fs), dir) && IsFile(base, postgresFile) && IsFile(base, sqliteFile) ==> ok
  {
    ghost var before := disk.fs;
    Layout(dir);
    NamesDiffer(dir);
    PathsByName(dir);
    if Ready(before, dir) {
      ReadyIsWritable(before, dir);
    }
    ok := CopyOne(disk, dir, POSTGRES, postgresFile, base);
    if !ok {
      return;
    }
    if Ready(before, dir) {
      ReadySame(before, disk.fs, dir);
      ReadyIsWritable(disk.fs, dir);
    }
    ok := CopyOne(disk, dir, SQLITE, sqliteFile, base);
  }

  method CopyOne(disk: Disk, dir: string, name: string, source: string, ghost base: FS) returns (ok: bool)
    requires Kept(base, disk.fs, {dir}) && Outside(source, {dir})
    modifies disk`fs
    ensures Kept(base, disk.fs, {dir})
    ensures ok ==> Read(disk.fs, Join(dir, name)) == Read(base, source)
    ensures ok ==> forall p :: p != Join(dir, name) ==> Read(disk.fs, p) == Read(old(disk.fs), p)
    ensures ok && IsDir(old(disk.fs), dir) ==> IsDir(disk.fs, dir)
    ensures ok ==> SameDirs(old(disk.fs), disk.fs)
    ensures ok ==> Names(disk.fs, dir) == Names(old(disk.fs), dir) + {name}
    ensures ok ==> IsFile(base, source) && !IsDir(old(disk.fs), Join(dir, name))
    ensures disk.calm && IsFile(base, source) && Writable(old(disk.fs), Join(dir, name)) ==> ok
  {
    ghost var before := disk.fs;
    JoinIsBelow(dir, name);
    FileKept(base, disk.fs, {dir}, source);
    assert source != Join(dir, name);
    ok := disk.CopyFile(source, Join(dir, name), base, {dir});
    if ok {
      FileKeepsDirs(before, disk.fs, Join(dir, name));
      WrittenNames(before, disk.fs, dir, name);
    }
  }

  /** The recovery guide and the mirror's own manifest, whatever they say. */
  method WriteDocuments(disk: Disk, dir: string, ghost base: FS) returns (ok: bool)
    requires Kept(base, disk.fs, {dir}) && IsDir(disk.fs, dir)
    modifies disk`fs
    ensures Kept(base, disk.fs, {dir}) && (ok ==> IsDir(disk.fs, dir))
    ensures ok ==> Read(disk.fs, MirrorPostgres(dir)) == Read(old(disk.fs), MirrorPostgres(dir))
    ensures ok ==> Read(disk.fs, MirrorSQLite(dir)) == Read(old(disk.fs), MirrorSQLite(dir))
    ensures ok ==> SameDirs(old(disk.fs), disk.fs)
    ensures ok ==> !IsDir(old(disk.fs), Join(dir, GUIDE)) && !IsDir(old(disk.fs), Join(dir, MANIFEST))
    ensures ok ==> Names(disk.fs, dir) == Names(old(disk.fs), dir) + {GUIDE} + {MANIFEST}
    ensures disk.calm && Ready(old(disk.fs), dir) ==> ok
  {
    ghost var before := disk.fs;
    NamesDiffer(dir);
    if Ready(before, dir) {
      ReadyIsWritable(before, dir);
    }
    ok := WriteOne(disk, dir, GUIDE, base);
    if !ok {
      return;
    }
    if Ready(before, dir) {
      ReadySame(before, disk.fs, dir);
      ReadyIsWritable(disk.fs, dir);
    }
    ok := WriteOne(disk, dir, MANIFEST, base);
  }

  method WriteOne(disk: Disk, dir: string, name: string, ghost base: FS) returns (ok: bool)
    requires Kept(base, disk.fs, {dir}) && IsDir(disk.fs, dir)
    modifies disk`fs
    ensures Kept(base, disk.fs, {dir}) && (ok ==> IsDir(disk.fs, dir))
    ensures ok ==> forall p :: p != Join(dir, name) ==> Read(disk.fs, p) == Read(old(disk.fs), p)
    ensures ok ==> SameDirs(old(disk.fs), disk.fs)
    ensures ok ==> Names(disk.fs, dir) == Names(old(disk.fs), dir) + {name}
    ensures ok ==> !IsDir(old(disk.fs), Join(dir, name))
    ensures disk.calm && Writable(old(disk.fs), Join(dir, name)) ==> ok
  {
    ghost var before := disk.fs;
    JoinIsBelow(dir, name);
    var text: string := *;
    ok := disk.WriteFile(Join(dir, name), text, PRIVATE_FILE, base, {dir});
    if ok {
      FileKeepsDirs(before, disk.fs, Join(dir, name));
      WrittenNames(before, disk.fs, dir, name);
    }
  }

  /** The source archive below the code directory. */
  method ArchiveSource(disk: Disk, dir: string, ghost base: FS) returns (ok: bool)
    requires Kept(base, disk.fs, {dir}) && IsDir(disk.fs, dir)
    modifies disk`fs
    ensures Kept(base, disk.fs, {dir}) && (ok ==> IsDir(disk.fs, dir))
    ensures ok ==> {ARCHIVE} <= Names(disk.fs, dir) <= Names(old(disk.fs), dir) + {ARCHIVE}
    ensures ok ==> !IsDir(old(disk.fs), Join(dir, ARCHIVE)) && !IsDir(old(disk.fs), TemporaryArchive(dir))
    ensures ok ==> SameDirs(old(disk.fs), disk.fs)
    ensures disk.calm && Ready(old(disk.fs), dir) ==> ok
  {
    ghost var before := disk.fs;
    var target := Join(CodeDir(dir), "source.tar.gz");
    Layout(dir);
    PathsByName(dir);
    assert Below(dir, target) && Below(dir, target + ".tmp");
    if Ready(before, dir) {
      ReadyIsWritable(before, dir);
    }
    ok := GitArchive(disk, target, base, {dir});
    if ok {
      ArchivedNames(before, disk.fs, dir);
    }
  }

  lemma ArchivedNames(before: FS, after: FS, dir: string)
    requires forall p :: p != Join(dir, ARCHIVE) && IsFile(after, p) ==> IsFile(before, p)
    requires IsFile(after, Join(dir, ARCHIVE))
    ensures {ARCHIVE} <= Names(after, dir) <= Names(before, dir) + {ARCHIVE}
  {
    InFiles(after, dir, ARCHIVE);
    forall n | n in Names(after, dir)
      ensures n == ARCHIVE || n in Names(before, dir)
    {
      InFiles(after, dir, n);
      InFiles(before, dir, n);
      RelOfJoin(dir, n);
      RelOfJoin(dir, ARCHIVE);
    }
  }

  /** The five files are there, and beside them only files that were there before. */
  predicate FiveFiles(before: FS, after: FS, dir: string) {
    NAMES <= Names(after, dir) <= Names(before, dir) + NAMES
  }

  lemma FiveOf(before: FS, a: FS, b: FS, c: FS, dir: string)
    requires {ARCHIVE} <= Names(a, dir) <= Names(before, dir) + {ARCHIVE}
    requires Names(b, dir) == Names(a, dir) + {POSTGRES} + {SQLITE}
    requires Names(c, dir) == Names(b, dir) + {GUIDE} + {MANIFEST}
    ensures FiveFiles(before, c, dir)
  {
    hide Names;
  }

  /** What was written was no directory before. */
  lemma FreeOf(before: FS, archived: FS, copied: FS, dir: string)
    requires SameDirs(before, archived) && SameDirs(archived, copied)
    requires !IsDir(before, Join(dir, ARCHIVE)) && !IsDir(before, TemporaryArchive(dir))
    requires !IsDir(archived, Join(dir, POSTGRES)) && !IsDir(archived, Join(dir, SQLITE))
    requires !IsDir(copied, Join(dir, GUIDE)) && !IsDir(copied, Join(dir, MANIFEST))
    ensures NamesFree(before, dir)
  {
    hide IsDir, Join, TemporaryArchive;
    SameDirsTransitive(before, archived, copied);
    forall q
      ensures IsDir(archived, q) == IsDir(before, q) == IsDir(copied, q)
    {
    }
  }

  lemma HeldSame(a: FS, b: FS, dir: string)
    requires Read(b, MirrorPostgres(dir)) == Read(a, MirrorPostgres(dir))
             && Read(b, MirrorSQLite(dir)) == Read(a, MirrorSQLite(dir))
    ensures Held(b, dir) == Held(a, dir)
  {
    hide Read, MirrorPostgres, MirrorSQLite;
  }

  lemma FiveSince(before: FS, made: FS, after: FS, dir: string)
    requires Names(made, dir) == Names(before, dir) && FiveFiles(made, after, dir)
    ensures FiveFiles(before, after, dir)
  {
    hide Names;
  }

  /** Fills a new mirror directory: the source archive, both artifacts, the guide and the manifest. */
  method FillMirror(disk: Disk, sha: Sha, dir: string, postgresFile: string,
                    sqliteFile: string) returns (digest: Option<string>)
    requires IsDir(disk.fs, dir) && Outside(postgresFile, {dir}) && Outside(sqliteFile, {dir})
    modifies disk`fs
    ensures Kept(old(disk.fs), disk.fs, {dir})
    ensures digest.Some? ==> digest == DigestAt(sha, disk.fs, dir) && !Blank(digest.value)
    ensures digest.Some? ==> Held(disk.fs, dir) == (Read(old(disk.fs), postgresFile), Read(old(disk.fs), sqliteFile))
    ensures digest.Some? ==> FiveFiles(old(disk.fs), disk.fs, dir) && SameDirs(old(disk.fs), disk.fs)
    ensures digest.Some? ==> NamesFree(old(disk.fs), dir)
    ensures digest.Some? ==> IsFile(old(disk.fs), postgresFile) && IsFile(old(disk.fs), sqliteFile)
    ensures (disk.calm && Ready(old(disk.fs), dir) && IsFile(old(disk.fs), postgresFile)
             && IsFile(old(disk.fs), sqliteFile)) ==> digest.Some?
  {
    hide *;
    ghost var before := disk.fs;
    KeptNothing(before, {dir});
    var ok := ArchiveSource(disk, dir, before);
    ghost var archived := disk.fs;
    if !ok {
      return None;
    }
    if Ready(before, dir) {
      ReadySame(before, archived, dir);
    }
    ok := CopyArtifacts(disk, dir, postgresFile, sqliteFile, before);
    ghost var copied := disk.fs;
    if !ok {
      return None;
    }
    if Ready(archived, dir) {
      ReadySame(archived, copied, dir);
    }
    ok := WriteDocuments(disk, dir, before);
    if !ok {
      return None;
    }
    FiveOf(before, archived, copied, disk.fs, dir);
    FreeOf(before, archived, copied, dir);
    SameDirsTransitive(before, archived, copied);
    SameDirsTransitive(before, copied, disk.fs);
    HeldSame(copied, disk.fs, dir);
    NotAFile(disk.fs, dir);
    digest := disk.DirectorySHA256(sha, dir);
  }

  /** No regular file stands where the mirror needs a directory, no directory where it needs a file. */
  predicate RoomFor(fs: FS, dir: string) {
    Passable(fs, CodeDir(dir)) && Passable(fs, DataDir(dir)) && NamesFree(fs, dir)
  }

  method MakeDirectories(disk: Disk, dir: string) returns (ok: bool)
    modifies disk`fs
    ensures Kept(old(disk.fs), disk.fs, {})
    ensures ok ==> IsDir(disk.fs, dir) && Names(disk.fs, dir) == Names(old(disk.fs), dir)
    ensures ok ==> OnlyNeeded(old(disk.fs), disk.fs, dir)
    ensures ok ==> Passable(old(disk.fs), CodeDir(dir)) && Passable(old(disk.fs), DataDir(dir))
    ensures disk.calm && RoomFor(old(disk.fs), dir) ==> ok && Ready(disk.fs, dir)
  {
    hide *;
    ghost var before := disk.fs;
    KeptNothing(before, {});
    RoomParts(before, dir);
    var ok1 := disk.MkdirAll(CodeDir(dir), PRIVATE_DIR, before, {});
    if !ok1 {
      return false;
    }
    MadeNames(before, CodeDir(dir), dir);
    if RoomFor(before, dir) {
      RoomStays(before, dir);
    }
    ghost var mid := disk.fs;
    ok := disk.MkdirAll(DataDir(dir), PRIVATE_DIR, before, {});
    if ok {
      MadeNames(mid, DataDir(dir), dir);
      DirIsMade(mid, dir);
      MadeOnlyNeeded(before, mid, disk.fs, dir);
      WasPassable(before, CodeDir(dir), DataDir(dir));
      if RoomFor(before, dir) {
        BothMade(before, mid, dir);
      }
    }
  }

  lemma RoomParts(fs: FS, dir: string)
    ensures RoomFor(fs, dir) ==> Passable(fs, CodeDir(dir)) && Passable(fs, DataDir(dir))
  {
  }

  lemma MadeNames(fs: FS, p: string, dir: string)
    requires Passable(fs, p)
    ensures Names(Made(fs, p, PRIVATE_DIR), dir) == Names(fs, dir)
  {
    MadeFiles(fs, p, PRIVATE_DIR, dir);
  }

  /** Making a directory puts no file in the way. */
  lemma StaysPassable(fs: FS, p: string, q: string)
    requires Passable(fs, p) && Passable(fs, q)
    ensures Passable(Made(fs, p, PRIVATE_DIR), q)
  {
    var made := Made(fs, p, PRIVATE_DIR);
    assert forall x :: IsFile(made, x) ==> IsFile(fs, x);
  }

  lemma WasPassable(fs: FS, p: string, q: string)
    requires Passable(fs, p) && Passable(Made(fs, p, PRIVATE_DIR), q)
    ensures Passable(fs, q)
  {
    var made := Made(fs, p, PRIVATE_DIR);
    assert forall x :: IsFile(fs, x) ==> IsFile(made, x);
  }

  lemma RoomStays(fs: FS, dir: string)
    requires RoomFor(fs, dir)
    ensures Passable(Made(fs, CodeDir(dir), PRIVATE_DIR), DataDir(dir))
  {
    StaysPassable(fs, CodeDir(dir), DataDir(dir));
  }

  lemma DirIsMade(fs: FS, dir: string)
    requires Passable(fs, DataDir(dir))
    ensures IsDir(Made(fs, DataDir(dir), PRIVATE_DIR), dir)
  {
    JoinIsBelow(dir, "data");
    AboveIsDir(Made(fs, DataDir(dir), PRIVATE_DIR), DataDir(dir), dir);
  }

  lemma MadeOnlyNeeded(a: FS, b: FS, c: FS, dir: string)
    requires Passable(a, CodeDir(dir)) && b == Made(a, CodeDir(dir), PRIVATE_DIR)
    requires Passable(b, DataDir(dir)) && c == Made(b, DataDir(dir), PRIVATE_DIR)
    ensures OnlyNeeded(a, c, dir)
  {
    hide CodeDir, DataDir, Under;
    forall q
      ensures IsDir(a, q) ==> IsDir(c, q)
      ensures IsDir(c, q) ==> IsDir(a, q) || Under(q, CodeDir(dir)) || Under(q, DataDir(dir))
    {
      assert q in a ==> q in b && b[q] == a[q];
      assert IsDir(c, q) ==> q in b || Under(q, DataDir(dir));
      assert q in b ==> q in a || Under(q, CodeDir(dir));
    }
  }

  /** A short directory of the mirror is not above its files. */
  lemma NamesStayFree(fs: FS, dir: string, name: string)
    requires NamesFree(fs, dir) && |name| == 4 && Passable(fs, Join(dir, name))
    ensures NamesFree(Made(fs, Join(dir, name), PRIVATE_DIR), dir)
  {
    var made := Made(fs, Join(dir, name), PRIVATE_DIR);
    forall n | n in NAMES
      ensures !IsDir(made, Join(dir, n))
    {
      assert |n| > 4;
      assert !Under(Join(dir, n), Join(dir, name));
    }
    assert |TemporaryArchive(dir)| > |Join(dir, name)|;
  }

  lemma BothMade(before: FS, mid: FS, dir: string)
    requires RoomFor(before, dir) && mid == Made(before, CodeDir(dir), PRIVATE_DIR) && Passable(mid, DataDir(dir))
    ensures Ready(Made(mid, DataDir(dir), PRIVATE_DIR), dir)
  {
    NamesStayFree(before, dir, "code");
    NamesStayFree(mid, dir, "data");
  }

  /** createOfficeMirror.  A mirror that is returned holds both artifacts, and its digest is the one reported. */
  method CreateOfficeMirror(disk: Disk, sha: Sha, cfg: Config, id: string, postgresFile: string, sqliteFile: string)
      returns (r: Option<MirrorResult>)
    requires Outside(postgresFile, {MirrorDir(cfg, id)}) && Outside(sqliteFile, {MirrorDir(cfg, id)})
    modifies disk`fs
    ensures Kept(old(disk.fs), disk.fs, {MirrorDir(cfg, id)})
    ensures r.Some? ==> r.value.path == MirrorDir(cfg, id)
    ensures r.Some? ==> IsDir(disk.fs, r.value.path) && !Blank(r.value.sum)
    ensures r.Some? ==> DigestAt(sha, disk.fs, r.value.path) == Some(r.value.sum)
    ensures r.Some? ==>
              Held(disk.fs, r.value.path) == (Read(old(disk.fs), postgresFile), Read(old(disk.fs), sqliteFile))
    ensures r.Some? ==> FiveFiles(old(disk.fs), disk.fs, r.value.path)
    ensures r.Some? ==> OnlyNeeded(old(disk.fs), disk.fs, r.value.path)
    ensures r.Some? ==> id != "" && RoomFor(old(disk.fs), MirrorDir(cfg, id))
    ensures r.Some? ==> IsFile(old(disk.fs), postgresFile) && IsFile(old(disk.fs), sqliteFile)
    ensures (disk.calm && id != "" && RoomFor(old(disk.fs), MirrorDir(cfg, id))
             && IsFile(old(disk.fs), postgresFile) && IsFile(old(disk.fs), sqliteFile)) ==> r.Some?
  {
    hide *;
    var dir := MirrorDir(cfg, id);
    KeptNothing(disk.fs, {dir});
    if id == "" {
      return None;
    }
    var noRepository := disk.Fault();
    if noRepository {
      return None;
    }
    r := BuildMirror(disk, sha, dir, postgresFile, sqliteFile);
    if r.Some? {
      DigestMeansDirectory(sha, disk.fs, dir);
    }
  }

  lemma HadRoom(before: FS, made: FS, dir: string)
    requires Passable(before, CodeDir(dir)) && Passable(before, DataDir(dir))
    requires OnlyNeeded(before, made, dir) && NamesFree(made, dir)
    ensures RoomFor(before, dir)
  {
    hide Passable, CodeDir, DataDir, Under, IsDir, Join, TemporaryArchive;
    forall q
      ensures IsDir(before, q) ==> IsDir(made, q)
    {
    }
  }

  method BuildMirror(disk: Disk, sha: Sha, dir: string, postgresFile: string, sqliteFile: string)
      returns (r: Option<MirrorResult>)
    requires Outside(postgresFile, {dir}) && Outside(sqliteFile, {dir})
    modifies disk`fs
    ensures Kept(old(disk.fs), disk.fs, {dir})
    ensures r.Some? ==> r.value.path == dir && DigestAt(sha, disk.fs, dir) == Some(r.value.sum) && !Blank(r.value.sum)
    ensures r.Some? ==> Held(disk.fs, dir) == (Read(old(disk.fs), postgresFile), Read(old(disk.fs), sqliteFile))
    ensures r.Some? ==> FiveFiles(old(disk.fs), disk.fs, dir) && OnlyNeeded(old(disk.fs), disk.fs, dir)
    ensures r.Some? ==> RoomFor(old(disk.fs), dir)
    ensures r.Some? ==> IsFile(old(disk.fs), postgresFile) && IsFile(old(disk.fs), sqliteFile)
    ensures (disk.calm && RoomFor(old(disk.fs), dir)
             && IsFile(old(disk.fs), postgresFile) && IsFile(old(disk.fs), sqliteFile)) ==> r.Some?
  {
    hide *;
    ghost var before := disk.fs;
    var ok := MakeDirectories(disk, dir);
    ghost var made := disk.fs;
    KeptMore(before, made, {}, {dir});
    if !ok {
      return None;
    }
    ReadKept(before, made, {dir}, postgresFile);
    ReadKept(before, made, {dir}, sqliteFile);
    var digest := FillMirror(disk, sha, dir, postgresFile, sqliteFile);
    KeptTransitive(before, made, disk.fs, {dir});
    if digest.Some? {
      FiveSince(before, made, disk.fs, dir);
      NeededThenSame(before, made, disk.fs, dir);
      HadRoom(before, made, dir);
    }
    if digest.None? {
      InItself(dir);
      ok := disk.RemoveAll(dir, before, {dir});
      return None;
    }
    r := Some(MirrorResult(dir, digest.value));
  }

  /** Every mirror, whatever the hash function, has the digest of some tree with a single file. */
  lemma MirrorHasLookalike(sha: Sha, fs: FS, dir: string)
    requires IsDir(fs, dir) && NAMES <= Names(fs, dir)
    ensures exists s: TreeDigest.Tree {:trigger TreeDigest.Digest(sha, s)} ::
              |s.Keys| == 1 && DigestAt(sha, fs, dir) == Some(TreeDigest.Digest(sha, s))
  {
    var t := Files(fs, dir);
    assert GUIDE in t && MANIFEST in t;
    GuideAndManifest();
    hide Files, TreeDigest.Digest, TreeDigest.Visible, TreeDigest.Lookalike, TreeDigest.Base, Names, IsDir;
    TwoVisible(t, GUIDE, MANIFEST);
    TreeDigest.HasLookalike(sha, t);
  }

  lemma GuideAndManifest()
    ensures GUIDE != MANIFEST
    ensures TreeDigest.Base(GUIDE) != TreeDigest.METADATA && TreeDigest.Base(MANIFEST) != TreeDigest.METADATA
  {
    hide TreeDigest.Base;
    assert |GUIDE| != |MANIFEST|;
    TreeDigest.NoSlash(GUIDE);
    TreeDigest.NoSlash(MANIFEST);
  }

  lemma TwoVisible(t: TreeDigest.Tree, a: string, b: string)
    requires a in t && b in t && a != b
    requires TreeDigest.Base(a) != TreeDigest.METADATA && TreeDigest.Base(b) != TreeDigest.METADATA
    ensures |TreeDigest.Visible(t).Keys| >= 2
  {
    hide TreeDigest.Base;
    TwoAreTwo(TreeDigest.Visible(t).Keys, a, b);
  }

  lemma TwoAreTwo(names: set<string>, a: string, b: string)
    requires {a, b} <= names && a != b
    ensures |names| >= 2
  {
    assert names == {a} + (names - {a});
    assert b in names - {a};
  }
}
