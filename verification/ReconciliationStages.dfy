/**
  The two stages of a reconciliation that repair trees, the mirror and the offsite copy, and the events a pass can
  record (backend/backup/reconciliation.go:121-397).
 */
module ReconciliationStages {
  import opened Common
  import opened Text
  import opened FileSystem
  import opened Storage
  import opened RecoveryPoint
  import opened RecoveryEvents
  import OfficeMirror
  import Offsite
  import TreeDigest

  // ---------------------------------------------------------------- the steps that are recorded

  datatype Step =
    | Started | CoreVerified | MirrorVerified | MirrorRebuilt | OffsiteVerified
    | Persisted | Completed | GuardianHealthy

  function EventOf(id: string, step: Step): Event {
    var rid := TrimSpace(id);
    match step
    case Started => Event(rid, "reconciliation_started", "started", "reconciliation")
    case CoreVerified => Event(rid, "core_verification", "verified", "core")
    case MirrorVerified => Event(rid, "office_mirror_verified", "verified", "office_mirror")
    case MirrorRebuilt => Event(rid, "office_mirror_rebuilt", "verified", "office_mirror")
    case OffsiteVerified => Event(rid, "offsite_verified", "verified", "offsite")
    case Persisted => Event(rid, "manifest_persisted", "success", "reconciliation")
    case Completed => Event(rid, "reconciliation_completed", "success", "reconciliation")
    case GuardianHealthy => Event(rid, "guardian_health", "healthy", "guardian")
  }

  lemma StepIsPlain(id: string, step: Step)
    ensures var e := EventOf(id, step); Solid(e.eventType) && Solid(e.status) && Solid(e.component)
  {
  }

  lemma StepIsRecorded(id: string, step: Step)
    ensures var e := EventOf(id, step);
            Recorded(id, e.eventType, e.status, e.component) == if Blank(id) then None else Some(e)
  {
    StepIsPlain(id, step);
    if !Blank(id) {
      var e := EventOf(id, step);
      RecordedPlain(id, e.eventType, e.status, e.component);
    }
  }

  function Events(id: string, steps: seq<Step>): (events: seq<Event>)
    ensures |events| == |steps| && forall i :: 0 <= i < |steps| ==> events[i] == EventOf(id, steps[i])
  {
    seq(|steps|, i requires 0 <= i < |steps| => EventOf(id, steps[i]))
  }

  /** These steps were noted, and nothing else; a timeline that is not up can lose some of them. */
  ghost predicate Logged(before: seq<Event>, after: seq<Event>, id: string, up: bool, steps: seq<Step>) {
    before <= after && (up ==> after == before + Events(id, steps))
  }

  lemma LoggedNone(events: seq<Event>, id: string, up: bool)
    ensures Logged(events, events, id, up, [])
  {
    hide EventOf;
    assert events + Events(id, []) == events;
  }

  lemma LoggedThen(a: seq<Event>, b: seq<Event>, c: seq<Event>, id: string, up: bool, s: seq<Step>, t: seq<Step>)
    requires Logged(a, b, id, up, s) && Logged(b, c, id, up, t)
    ensures Logged(a, c, id, up, s + t)
  {
    hide EventOf;
    if up {
      assert Events(id, s + t) == Events(id, s) + Events(id, t);
      assert a + Events(id, s) + Events(id, t) == a + (Events(id, s) + Events(id, t));
    }
  }

  lemma LoggedNote(before: seq<Event>, after: seq<Event>, id: string, up: bool, step: Step)
    requires after == before || after == before + [EventOf(id, step)]
    requires up ==> after == before + [EventOf(id, step)]
    ensures Logged(before, after, id, up, [step])
  {
    hide EventOf;
    assert Events(id, [step]) == [EventOf(id, step)];
  }

  // ---------------------------------------------------------------- sound trees

  /** The test both trees of a recovery point must pass to be left alone. */
  ghost predicate Sound(sha: Sha, fs: FS, verified: bool, path: string, sum: string) {
    verified && !Blank(path) && !Blank(sum) && DigestAt(sha, fs, path) == Some(sum)
  }

  ghost predicate MirrorSound(sha: Sha, fs: FS, m: Manifest) {
    Sound(sha, fs, m.mirrorVerified, m.mirrorPath, m.mirrorSHA)
  }

  ghost predicate OffsiteSound(sha: Sha, cfg: Config, fs: FS, m: Manifest) {
    if cfg.offsiteRoot == "" then OffsiteCleared(m)
    else m.offsiteStatus == "verified" && Sound(sha, fs, m.offsiteVerified, m.offsitePath, m.offsiteSHA)
  }

  predicate OffsiteCleared(m: Manifest) {
    && m.offsiteProvider == "filesystem" && m.offsiteStatus == "not-configured"
    && m.offsitePath == "" && m.offsiteSHA == "" && !m.offsiteVerified
  }

  /** Everything a successful reconciliation promises about the disk. */
  ghost predicate Reconciled(sha: Sha, json: Json, cfg: Config, fs: FS, id: string, m: Manifest) {
    && Verified(sha, json, cfg, fs, id) == Some(m)
    && Read(fs, ManifestPath(cfg, id)) == Some(json.encode(m))
    && MirrorSound(sha, fs, m)
    && OffsiteSound(sha, cfg, fs, m)
  }

  // ---------------------------------------------------------------- where things are

  function MirrorRoots(cfg: Config, id: string, m: Manifest): set<string> {
    {MirrorDir(cfg, id)} + (if Blank(m.mirrorPath) then {} else {m.mirrorPath})
  }

  function OffsiteRoots(cfg: Config, id: string, m: Manifest): set<string> {
    if cfg.offsiteRoot == "" then {}
    else {cfg.offsiteRoot,
        TrimSpace(OffsiteDir(cfg, id))} + (if Blank(m.offsitePath) then {} else {TrimSpace(m.offsitePath)})
  }

  /** The trees and the file a reconciliation may change. */
  function Touched(cfg: Config, id: string, m: Manifest): set<string> {
    MirrorRoots(cfg, id, m) + OffsiteRoots(cfg, id, m) + {ManifestPath(cfg, id)}
  }

  predicate AllDisjoint(a: set<string>, b: set<string>) {
    forall x, y :: x in a && y in b ==> Disjoint(x, y)
  }

  /** Mirrors, offsite copies, the manifest and the artifacts lie apart from each other. */
  predicate Separate(cfg: Config, id: string, m: Manifest) {
    var mirrors, offsites := MirrorRoots(cfg, id, m), OffsiteRoots(cfg, id, m);
    var manifest, artifacts := ManifestPath(cfg, id), Artifacts(cfg, id, m);
    && AllDisjoint(mirrors, offsites)
    && AllDisjoint(mirrors + offsites, {manifest})
    && AllDisjoint(mirrors + offsites + {manifest}, artifacts)
    && (cfg.offsiteRoot != "" && !Blank(m.offsitePath) ==> Disjoint(m.offsitePath, manifest))
  }

  /** `r` is `m` up to what is said about its mirror. */
  predicate SameButMirror(m: Manifest, r: Manifest) {
    r == m.(mirrorPath := r.mirrorPath, mirrorSHA := r.mirrorSHA, mirrorVerified := true)
  }

  predicate SameButOffsite(m: Manifest, r: Manifest) {
    r == m.(offsiteProvider := r.offsiteProvider, offsiteStatus := r.offsiteStatus, offsitePath := r.offsitePath,
            offsiteSHA := r.offsiteSHA, offsiteVerified := r.offsiteVerified)
  }

  lemma JoinIsNotBlank(dir: string, name: string)
    ensures !Blank(Join(dir, name))
  {
    NotBlank(Join(dir, name), '/');
  }

  lemma SoundMirror(sha: Sha, fs: FS, m: Manifest)
    ensures MirrorSound(sha, fs, m) == Sound(sha, fs, m.mirrorVerified, m.mirrorPath, m.mirrorSHA)
  {
  }

  lemma OutsideItsMirror(cfg: Config, id: string, m: Manifest, p: string)
    requires Outside(p, MirrorRoots(cfg, id, m))
    ensures Outside(p, {MirrorDir(cfg, id)})
  {
  }

  lemma NothingLeft(fs: FS, root: string)
    ensures OfficeMirror.Names(Removed(fs, root), root) == {}
  {
    var after := Removed(fs, root);
    forall n
      ensures n !in OfficeMirror.Names(after, root)
    {
      InFiles(after, root, n);
      JoinIsBelow(root, n);
    }
  }

  /** The disk once the recorded mirror is removed. */
  function WithoutMirror(fs: FS, m: Manifest): FS {
    if Blank(m.mirrorPath) then fs else Removed(fs, m.mirrorPath)
  }

  /** Once the recorded mirror is removed, there is room for a new one. */
  predicate RoomForMirror(cfg: Config, fs: FS, id: string, m: Manifest) {
    OfficeMirror.RoomFor(WithoutMirror(fs, m), MirrorDir(cfg, id))
  }

  // ---------------------------------------------------------------- the mirror stage

  predicate CanRebuild(cfg: Config, fs: FS, id: string, m: Manifest, postgresFile: string, sqliteFile: string) {
    id != "" && IsFile(fs, postgresFile) && IsFile(fs, sqliteFile) && RoomForMirror(cfg, fs, id, m)
  }

  /**
    A rebuilt mirror is sound and holds what the artifacts held; without failures it is rebuilt where there is room.
   */
  ghost predicate MirrorRebuild(sha: Sha, cfg: Config, before: FS, after: FS, calm: bool, id: string, m: Manifest,
                                postgresFile: string, sqliteFile: string, built: Option<OfficeMirror.MirrorResult>) {
    && Kept(before, after, MirrorRoots(cfg, id, m))
    && (built.Some? ==>
          && built.value.path == MirrorDir(cfg, id)
          && IsDir(after, built.value.path)
          && Sound(sha, after, true, built.value.path, built.value.sum)
          && OfficeMirror.Held(after, built.value.path) == (Read(before, postgresFile), Read(before, sqliteFile)))
    && (built.Some? && calm && m.mirrorPath == MirrorDir(cfg, id) ==>
        OfficeMirror.Names(after, built.value.path) == OfficeMirror.NAMES)
    && (calm ==> (built.Some? <==> CanRebuild(cfg, before, id, m, postgresFile, sqliteFile)))
    && (calm && built.Some? ==> BesideMetadata(cfg, before, after, id, m))
  }

  /** Of the new mirror: a directory stands where the offsite metadata would go only if it stood there all along. */
  ghost predicate BesideMetadata(cfg: Config, before: FS, after: FS, id: string, m: Manifest) {
    && DirsNear(before, after, MirrorDir(cfg, id))
    && (IsDir(after, Offsite.MetadataPath(MirrorDir(cfg, id)))
        <==> IsDir(WithoutMirror(before, m), Offsite.MetadataPath(MirrorDir(cfg, id))))
  }

  /**
    The mirror stage: a sound mirror is left alone, any other is removed and built anew from the artifacts, with
    nothing left over from the damaged one.
   */
  ghost predicate MirrorStage(sha: Sha, cfg: Config, before: FS, after: FS, calm: bool, id: string, m: Manifest,
                              postgresFile: string, sqliteFile: string, r: Option<Manifest>) {
    && Kept(before, after, MirrorRoots(cfg, id, m))
    && (r.Some? ==> MirrorSound(sha, after, r.value) && SameButMirror(m, r.value))
    && (r.Some? ==>
          || (r == Some(m) && after == before)
          || (&& r.value.mirrorPath == MirrorDir(cfg, id)
              && OfficeMirror.Held(after, r.value.mirrorPath)
                 == (Read(before, postgresFile), Read(before, sqliteFile))))
    && (calm && MirrorSound(sha, before, m) ==> r == Some(m) && after == before)
    && (calm && !MirrorSound(sha, before, m) && r.Some? && m.mirrorPath == MirrorDir(cfg, id) ==>
          OfficeMirror.Names(after, r.value.mirrorPath) == OfficeMirror.NAMES)
    && (calm && !MirrorSound(sha, before, m) ==>
          (r.Some? <==> CanRebuild(cfg, before, id, m, postgresFile, sqliteFile)))
    && (calm && !MirrorSound(sha, before, m) && r.Some? ==>
          r.value.mirrorPath == MirrorDir(cfg, id) && BesideMetadata(cfg, before, after, id, m))
  }

  lemma HealthyMirrorStage(sha: Sha, cfg: Config, fs: FS, calm: bool, id: string, m: Manifest, postgresFile: string,
                          sqliteFile: string)
    requires MirrorSound(sha, fs, m)
    ensures MirrorStage(sha, cfg, fs, fs, calm, id, m, postgresFile, sqliteFile, Some(m))
  {
  }

  lemma RebuiltMirrorStage(sha: Sha, cfg: Config, before: FS, after: FS, calm: bool, id: string, m: Manifest,
                           postgresFile: string, sqliteFile: string, built: Option<OfficeMirror.MirrorResult>)
    requires MirrorRebuild(sha, cfg, before, after, calm, id, m, postgresFile, sqliteFile, built)
    requires calm ==> !MirrorSound(sha, before, m)
    ensures MirrorStage(sha, cfg, before, after, calm, id, m, postgresFile, sqliteFile, WithMirror(m, built))
  {
    hide BesideMetadata, CanRebuild, Kept, OfficeMirror.Held, OfficeMirror.Names, Read, MirrorDir, MirrorRoots,
        DigestAt, Blank;
  }

  lemma NoneOrSome(m: Manifest, built: Option<OfficeMirror.MirrorResult>)
    ensures WithMirror(m, built).Some? == built.Some?
  {
  }

  lemma FailedRebuild(sha: Sha, cfg: Config, before: FS, after: FS, id: string, m: Manifest,
                      postgresFile: string, sqliteFile: string, built: Option<OfficeMirror.MirrorResult>)
    requires MirrorRebuild(sha, cfg, before, after, false, id, m, postgresFile, sqliteFile, built)
    ensures MirrorRebuild(sha, cfg, before, after, false, id, m, postgresFile, sqliteFile, None)
  {
  }

  function WithMirror(m: Manifest, built: Option<OfficeMirror.MirrorResult>): Option<Manifest> {
    if built.None? then None
    else Some(m.(mirrorPath := built.value.path, mirrorSHA := built.value.sum, mirrorVerified := true))
  }

  /** No directory is made or lost where the offsite metadata will go. */
  lemma MetadataIsNotNeeded(a: FS, b: FS, dir: string)
    requires OfficeMirror.OnlyNeeded(a, b, dir)
    ensures IsDir(b, Offsite.MetadataPath(dir)) <==> IsDir(a, Offsite.MetadataPath(dir))
  {
    var p := Offsite.MetadataPath(dir);
    assert |p| > |OfficeMirror.CodeDir(dir)| && |p| > |OfficeMirror.DataDir(dir)|;
    assert IsDir(b, p) ==> IsDir(a, p);
  }

  lemma NeededIsNear(a: FS, b: FS, dir: string)
    requires OfficeMirror.OnlyNeeded(a, b, dir)
    ensures DirsNear(a, b, dir)
  {
    OfficeMirror.Layout(dir);
    forall q | IsDir(b, q) && !IsDir(a, q)
      ensures Under(dir, q) || Under(q, dir)
    {
      var inner := if Under(q, OfficeMirror.CodeDir(dir)) then OfficeMirror.CodeDir(dir) else OfficeMirror.DataDir(dir);
      SharedPathMeansNested(dir, q, inner);
    }
  }

  lemma WithoutMirrorIsFewer(fs: FS, m: Manifest)
    ensures Fewer(fs, WithoutMirror(fs, m))
  {
    hide Blank;
  }

  lemma RebuiltBesideMetadata(cfg: Config, before: FS, after: FS, id: string, m: Manifest)
    requires OfficeMirror.OnlyNeeded(WithoutMirror(before, m), after, MirrorDir(cfg, id))
    ensures BesideMetadata(cfg, before, after, id, m)
  {
    hide OfficeMirror.OnlyNeeded, WithoutMirror, DirsNear, MirrorDir, IsDir, Offsite.MetadataPath;
    var dir, cleared := MirrorDir(cfg, id), WithoutMirror(before, m);
    WithoutMirrorIsFewer(before, m);
    FewerDirs(before, cleared, dir);
    NeededIsNear(cleared, after, dir);
    DirsNearTransitive(before, cleared, after, dir);
    MetadataIsNotNeeded(cleared, after, dir);
  }

  lemma JustFive(a: FS, b: FS, dir: string)
    requires OfficeMirror.FiveFiles(a, b, dir)
    ensures OfficeMirror.Names(a, dir) == {} ==> OfficeMirror.Names(b, dir) == OfficeMirror.NAMES
  {
    hide OfficeMirror.Names;
  }

  lemma BuiltAfterClearing(sha: Sha, cfg: Config, before: FS, cleared: FS, after: FS, calm: bool, id: string,
                           m: Manifest,
                           postgresFile: string, sqliteFile: string, built: Option<OfficeMirror.MirrorResult>)
    requires Kept(before, cleared, MirrorRoots(cfg, id, m)) && Kept(cleared, after, {MirrorDir(cfg, id)})
    requires Read(cleared, postgresFile) == Read(before, postgresFile)
             && Read(cleared, sqliteFile) == Read(before, sqliteFile)
    requires built.Some? ==>
               && built.value.path == MirrorDir(cfg, id) && IsDir(after, built.value.path)
               && DigestAt(sha, after, built.value.path) == Some(built.value.sum) && !Blank(built.value.sum)
               && OfficeMirror.Held(after, built.value.path) == (Read(cleared, postgresFile), Read(cleared, sqliteFile))
               && OfficeMirror.FiveFiles(cleared, after, built.value.path)
    requires calm && m.mirrorPath == MirrorDir(cfg, id) ==> OfficeMirror.Names(cleared, MirrorDir(cfg, id)) == {}
    requires calm ==> cleared == WithoutMirror(before, m)
    requires calm ==> (built.Some? <==> CanRebuild(cfg, before, id, m, postgresFile, sqliteFile))
    requires built.Some? ==> OfficeMirror.OnlyNeeded(cleared, after, built.value.path)
    ensures MirrorRebuild(sha, cfg, before, after, calm, id, m, postgresFile, sqliteFile, built)
  {
    hide Blank, DigestAt, OfficeMirror.Held, Read, IsDir, OfficeMirror.Names, CanRebuild, OfficeMirror.OnlyNeeded,
        BesideMetadata, WithoutMirror, Kept, MirrorDir, OfficeMirror.FiveFiles;
    if calm && built.Some? {
      RebuiltBesideMetadata(cfg, before, after, id, m);
    }
    if built.Some? {
      JustFive(cleared, after, built.value.path);
    }
    KeptMore(cleared, after, {MirrorDir(cfg, id)}, MirrorRoots(cfg, id, m));
    hide MirrorRoots;
    KeptTransitive(before, cleared, after, MirrorRoots(cfg, id, m));
    MirrorDirIsNotBlank(cfg, id);
  }

  lemma MirrorDirIsNotBlank(cfg: Config, id: string)
    ensures !Blank(MirrorDir(cfg, id))
  {
    JoinIsNotBlank(cfg.mirrorRoot, id);
  }

  // ---------------------------------------------------------------- the offsite stage

  /** The disk once the recorded copy is removed. */
  function WithoutCopy(fs: FS, m: Manifest): FS {
    if TrimSpace(m.offsitePath) == "" then fs else Removed(fs, TrimSpace(m.offsitePath))
  }

  /** No regular file stands above the two places that are cleared for a new copy, one after the other. */
  predicate RoomForCopy(cfg: Config, fs: FS, id: string, m: Manifest) {
    cfg.offsiteRoot != "" ==>
      && TrimSpace(OffsiteDir(cfg, id)) == OffsiteDir(cfg, id)
      && (TrimSpace(m.offsitePath) != "" ==> NoFileAbove(fs, TrimSpace(m.offsitePath)))
      && NoFileAbove(WithoutCopy(fs, m), OffsiteDir(cfg, id))
  }

  /** Nothing but a failure keeps the copy from being made. */
  predicate CanCopy(cfg: Config, fs: FS, id: string, m: Manifest) {
    && RoomForCopy(cfg, fs, id, m)
    && (cfg.offsiteRoot != "" ==>
          id != "" && m.mirrorPath != "" && IsDir(fs, m.mirrorPath) && !IsDir(fs, Offsite.MetadataPath(m.mirrorPath)))
  }

  /** The recorded copy passes its test and is left alone. */
  ghost predicate CopyStands(sha: Sha, cfg: Config, fs: FS, m: Manifest) {
    cfg.offsiteRoot != "" && Sound(sha, fs, m.offsiteVerified, m.offsitePath, m.offsiteSHA)
  }

  /** The offsite stage: a sound copy is left alone, any other is removed and made anew from the mirror. */
  ghost predicate OffsiteStage(sha: Sha, cfg: Config, before: FS, after: FS, calm: bool, id: string, m: Manifest,
                          r: Option<Manifest>) {
    && Kept(before, after, OffsiteRoots(cfg, id, m))
    && (r.Some? ==> OffsiteSound(sha, cfg, after, r.value) && SameButOffsite(m, r.value))
    && (r.Some? && cfg.offsiteRoot != "" ==>
          || (r == Some(m.(offsiteStatus := "verified")) && after == before)
          || (&& r.value.offsiteProvider == "filesystem" && r.value.offsitePath == OffsiteDir(cfg, id)
              && DigestAt(sha, before, m.mirrorPath) == Some(r.value.offsiteSHA)))
    && (calm && OffsiteSound(sha, cfg, before, m) ==> r == Some(m) && after == before)
    && (calm && (CopyStands(sha, cfg, before, m) || CanCopy(cfg, before, id, m)) ==> r.Some?)
    && (calm && r.Some? && TrimSpace(OffsiteDir(cfg, id)) == OffsiteDir(cfg, id) ==>
          CopyStands(sha, cfg, before, m) || CanCopy(cfg, before, id, m))
  }

  function Cleared(m: Manifest): Manifest {
    m.(offsiteProvider := "filesystem", offsiteStatus := "not-configured", offsitePath := "", offsiteSHA := "",
        offsiteVerified := false)
  }

  function WithCopy(m: Manifest, copy: Offsite.CopyResult): Manifest {
    m.(offsiteProvider := copy.provider, offsiteStatus := copy.status, offsitePath := copy.path, offsiteSHA := copy.sum,
       offsiteVerified := true)
  }

  lemma UnconfiguredStage(sha: Sha, cfg: Config, fs: FS, calm: bool, id: string, m: Manifest)
    requires cfg.offsiteRoot == ""
    ensures OffsiteStage(sha, cfg, fs, fs, calm, id, m, Some(Cleared(m)))
  {
    hide Blank, DigestAt;
  }

  lemma HealthyOffsiteStage(sha: Sha, cfg: Config, fs: FS, calm: bool, id: string, m: Manifest)
    requires cfg.offsiteRoot != "" && Sound(sha, fs, m.offsiteVerified, m.offsitePath, m.offsiteSHA)
    ensures OffsiteStage(sha, cfg, fs, fs, calm, id, m, Some(m.(offsiteStatus := "verified")))
  {
    hide Blank, DigestAt;
  }

  lemma FailedOffsiteStage(sha: Sha, cfg: Config, before: FS, after: FS, calm: bool, id: string, m: Manifest)
    requires cfg.offsiteRoot != "" && Kept(before, after, OffsiteRoots(cfg, id, m))
    requires calm ==>
              !Sound(sha, before, m.offsiteVerified, m.offsitePath, m.offsiteSHA) && !CanCopy(cfg, before, id, m)
    ensures OffsiteStage(sha, cfg, before, after, calm, id, m, None)
  {
    hide Blank, DigestAt, CanCopy;
  }

  lemma CopiedOffsiteStage(sha: Sha, json: Json, cfg: Config, before: FS, cleared: FS, after: FS, calm: bool,
                           id: string, m: Manifest, copy: Offsite.CopyResult)
    requires cfg.offsiteRoot != "" && Kept(before, after, OffsiteRoots(cfg, id, m))
    requires calm ==> !Sound(sha, before, m.offsiteVerified, m.offsitePath, m.offsiteSHA)
    requires calm && TrimSpace(OffsiteDir(cfg, id)) == OffsiteDir(cfg, id) ==> CanCopy(cfg, before, id, m)
    requires copy.verified && copy.path == OffsiteDir(cfg, id) && !Blank(copy.sum)
    requires copy.provider == "filesystem" && copy.status == "verified"
    requires Offsite.GoodCopy(sha, json, cleared, after, id, m.mirrorPath, copy)
    requires DigestAt(sha, cleared, m.mirrorPath) == DigestAt(sha, before, m.mirrorPath)
    ensures OffsiteStage(sha, cfg, before, after, calm, id, m, Some(WithCopy(m, copy)))
  {
    hide Blank, DigestAt, CanCopy, OffsiteDir, Offsite.MetadataText, SealedTree, Kept, OffsiteRoots, TrimSpace;
    OffsiteDirIsNotBlank(cfg, id);
  }

  lemma OffsiteDirIsNotBlank(cfg: Config, id: string)
    ensures !Blank(OffsiteDir(cfg, id))
  {
    JoinIsNotBlank(cfg.offsiteRoot, id);
  }

  /** The copy roots of one offsite copy lie in the trees of the stage. */
  lemma CopyRootsCovered(json: Json, cfg: Config, fs: FS, after: FS, id: string, now: int, m: Manifest)
    requires cfg.offsiteRoot != "" && Kept(fs, after, Offsite.CopyRoots(json, cfg, fs, id, now))
    ensures Kept(fs, after, OffsiteRoots(cfg, id, m))
  {
    forall r | r in Offsite.CopyRoots(json, cfg, fs, id, now)
      ensures !Outside(r, OffsiteRoots(cfg, id, m))
    {
      if r == OffsiteDir(cfg, id) {
        JoinIsBelow(cfg.offsiteRoot, id);
      } else {
        Offsite.DoomedIsInRoot(json, fs, cfg.offsiteRoot, now, r);
      }
      assert cfg.offsiteRoot in OffsiteRoots(cfg, id, m);
    }
    KeptCovered(fs, after, Offsite.CopyRoots(json, cfg, fs, id, now), OffsiteRoots(cfg, id, m));
  }

  /** Clearing the old copies leaves the mirror and makes room. */
  lemma AfterClearing(sha: Sha, cfg: Config, before: FS, cleared: FS, id: string, m: Manifest)
    requires Kept(before, cleared, OffsiteRoots(cfg, id, m)) && Apart(m.mirrorPath, OffsiteRoots(cfg, id, m))
    ensures IsDir(before, m.mirrorPath) ==> IsDir(cleared, m.mirrorPath)
    ensures IsDir(before, m.mirrorPath) ==> DigestAt(sha, cleared, m.mirrorPath) == DigestAt(sha, before, m.mirrorPath)
    ensures m.mirrorPath in before ==> m.mirrorPath in cleared && cleared[m.mirrorPath] == before[m.mirrorPath]
    ensures IsDir(before, Offsite.MetadataPath(m.mirrorPath)) ==> IsDir(cleared, Offsite.MetadataPath(m.mirrorPath))
  {
    MetadataStays(before, cleared, OffsiteRoots(cfg, id, m), m.mirrorPath);
    ApartMeansOutside(m.mirrorPath, OffsiteRoots(cfg, id, m), m.mirrorPath);
    assert KeptAt(before, cleared, m.mirrorPath);
    if IsDir(before, m.mirrorPath) {
      DigestKept(sha, before, cleared, OffsiteRoots(cfg, id, m), m.mirrorPath);
    }
  }

  lemma MetadataStays(before: FS, after: FS, roots: set<string>, dir: string)
    requires Kept(before, after, roots) && Apart(dir, roots)
    ensures IsDir(before, Offsite.MetadataPath(dir)) ==> IsDir(after, Offsite.MetadataPath(dir))
  {
    var p := Offsite.MetadataPath(dir);
    JoinIsBelow(dir, TreeDigest.METADATA);
    ApartMeansOutside(dir, roots, p);
    assert KeptAt(before, after, p);
  }

  lemma MirrorApartFromOffsite(cfg: Config, id: string, m: Manifest)
    requires cfg.offsiteRoot != "" && Apart(m.mirrorPath, OffsiteRoots(cfg, id, m))
    ensures Disjoint(cfg.offsiteRoot, m.mirrorPath)
  {
  }

  /** A copy that could have been made before the places were cleared can be made afterwards. */
  lemma NoCopy(cfg: Config, before: FS, cleared: FS, id: string, m: Manifest, calm: bool)
    requires cfg.offsiteRoot != "" && !Exists(cleared, TrimSpace(OffsiteDir(cfg, id))) && IsDir(cleared, m.mirrorPath)
    requires !(calm && Offsite.Copyable(cfg, cleared, id, m.mirrorPath))
    requires calm ==> Fewer(WithoutCopy(before, m), cleared)
    ensures calm ==> !CanCopy(cfg, before, id, m)
  {
    if calm {
      hide TrimSpace;
      WithoutCopyIsFewer(before, m);
      FewerMeansClearer(WithoutCopy(before, m), cleared, OffsiteDir(cfg, id));
      FewerMeansClearer(WithoutCopy(before, m), cleared, Offsite.MetadataPath(m.mirrorPath));
      FewerMeansClearer(before, WithoutCopy(before, m), Offsite.MetadataPath(m.mirrorPath));
    }
  }

  lemma WithoutCopyIsFewer(fs: FS, m: Manifest)
    ensures Fewer(fs, WithoutCopy(fs, m))
  {
    hide TrimSpace;
  }

  lemma NoRoomNoCopy(cfg: Config, fs: FS, id: string, m: Manifest)
    requires !RoomForCopy(cfg, fs, id, m)
    ensures !CanCopy(cfg, fs, id, m)
  {
  }

  lemma CouldCopy(cfg: Config, fs: FS, id: string, m: Manifest)
    requires RoomForCopy(cfg, fs, id, m) && id != "" && m.mirrorPath != "" && IsDir(fs, m.mirrorPath)
    requires !IsDir(fs, Offsite.MetadataPath(m.mirrorPath))
    ensures CanCopy(cfg, fs, id, m)
  {
    hide RoomForCopy, IsDir, Offsite.MetadataPath;
  }

  lemma CopyIsThere(sha: Sha, json: Json, cleared: FS, after: FS, id: string, mirror: string, copy: Offsite.CopyResult)
    requires Offsite.GoodCopy(sha, json, cleared, after, id, mirror, copy)
    ensures IsDir(after, copy.path) && !IsFile(after, copy.path) && DigestAt(sha, after, copy.path) == Some(copy.sum)
  {
  }

  lemma CleanupPath(cfg: Config, id: string, m: Manifest, path: string)
    requires cfg.offsiteRoot != "" && (path == TrimSpace(m.offsitePath) || path == OffsiteDir(cfg, id))
    ensures TrimSpace(path) != "" ==> !Blank(TrimSpace(path)) && !Outside(TrimSpace(path), OffsiteRoots(cfg, id, m))
    ensures path == OffsiteDir(cfg, id) ==> TrimSpace(path) != ""
  {
    TrimIsSolid(path);
    TrimIsSolid(m.offsitePath);
    JoinIsNotBlank(cfg.offsiteRoot, id);
    assert Under(TrimSpace(path), TrimSpace(path));
    if TrimSpace(path) != "" {
      assert TrimSpace(path) in OffsiteRoots(cfg, id, m);
    }
  }

  // ---------------------------------------------------------------- clearing both places

  /** Before the entry `i` of the cleanup list: what is on disk, and that no file stood in the way so far. */
  ghost predicate ClearedSoFar(cfg: Config, before: FS, fs: FS, id: string, m: Manifest, i: int, seen: set<string>) {
    var first, second := TrimSpace(m.offsitePath), TrimSpace(OffsiteDir(cfg, id));
    && (i == 0 ==> fs == before && seen == {})
    && (i >= 1 ==> Fewer(WithoutCopy(before, m), fs) && (first != "" ==> NoFileAbove(before, first)))
    && (i == 1 ==> fs == WithoutCopy(before, m) && seen == if first == "" then {} else {first})
    && (i >= 2 ==> NoFileAbove(WithoutCopy(before, m), second))
  }

  lemma NotCleared(cfg: Config, before: FS, id: string, m: Manifest)
    ensures ClearedSoFar(cfg, before, before, id, m, 0, {})
  {
    hide WithoutCopy, NoFileAbove, TrimSpace;
  }

  /** What one entry of the cleanup list comes to: it is skipped, or removed, or a file above it stops the stage. */
  ghost predicate StepClears(cfg: Config, before: FS, mid: FS, id: string, m: Manifest, i: int, path: string,
                             seen: set<string>) {
    && (path == "" || path in seen ==> ClearedSoFar(cfg, before, mid, id, m, i + 1, seen))
    && (path != "" && NoFileAbove(mid, path) ==>
          ClearedSoFar(cfg, before, Removed(mid, path), id, m, i + 1, seen + {path}))
    && (path != "" && path !in seen && !NoFileAbove(mid, path) ==>
          TrimSpace(OffsiteDir(cfg, id)) == OffsiteDir(cfg, id) ==> !RoomForCopy(cfg, before, id, m))
  }

  /** One entry of the cleanup list on an undisturbed disk. */
  lemma CleanupStep(cfg: Config, before: FS, mid: FS, id: string, m: Manifest, i: int, seen: set<string>)
    requires cfg.offsiteRoot != "" && 0 <= i < 2 && ClearedSoFar(cfg, before, mid, id, m, i, seen)
    ensures var path := TrimSpace([TrimSpace(m.offsitePath), OffsiteDir(cfg, id)][i]);
            StepClears(cfg, before, mid, id, m, i, path, seen)
  {
    hide TrimSpace, NoFileAbove, OffsiteDir, Fewer;
    TrimIsSolid(m.offsitePath);
    TrimIsSolid(OffsiteDir(cfg, id));
    NothingFewer(mid);
    if i == 0 {
      if TrimSpace(m.offsitePath) == "" {
        NoFirst(before, m);
      } else {
        WayToFirst(cfg, before, id, m);
        NothingFewer(WithoutCopy(before, m));
      }
    } else {
      SecondStep(cfg, before, mid, id, m, seen);
    }
  }

  lemma StepParts(cfg: Config, before: FS, mid: FS, id: string, m: Manifest, i: int, path: string, seen: set<string>)
    requires StepClears(cfg, before, mid, id, m, i, path, seen)
    ensures path == "" || path in seen ==> ClearedSoFar(cfg, before, mid, id, m, i + 1, seen)
    ensures path != "" && NoFileAbove(mid, path) ==>
              ClearedSoFar(cfg, before, Removed(mid, path), id, m, i + 1, seen + {path})
    ensures path != "" && path !in seen && !NoFileAbove(mid, path) ==>
              TrimSpace(OffsiteDir(cfg, id)) == OffsiteDir(cfg, id) ==> !RoomForCopy(cfg, before, id, m)
  {
    hide ClearedSoFar, NoFileAbove, TrimSpace, OffsiteDir, RoomForCopy;
  }

  lemma SecondStep(cfg: Config, before: FS, mid: FS, id: string, m: Manifest, seen: set<string>)
    requires cfg.offsiteRoot != "" && ClearedSoFar(cfg, before, mid, id, m, 1, seen)
    ensures StepClears(cfg, before, mid, id, m, 1, TrimSpace(OffsiteDir(cfg, id)), seen)
  {
    hide TrimSpace, NoFileAbove, OffsiteDir, Fewer;
    var path := TrimSpace(OffsiteDir(cfg, id));
    OffsiteDirIsNotBlank(cfg, id);
    assert path != "" by { SolidIsNotEmpty(OffsiteDir(cfg, id)); }
    WithoutCopyIsFewer(before, m);
    FewerMeansClearer(before, mid, path);
    RemovedIsFewer(mid, mid, path) by { NothingFewer(mid); }
    NothingFewer(mid);
  }

  lemma SolidIsNotEmpty(s: string)
    requires !Blank(s)
    ensures TrimSpace(s) != ""
  {
  }

  lemma AllCleared(cfg: Config, before: FS, fs: FS, id: string, m: Manifest, seen: set<string>)
    requires cfg.offsiteRoot != "" && ClearedSoFar(cfg, before, fs, id, m, 2, seen)
    ensures Fewer(WithoutCopy(before, m), fs)
    ensures TrimSpace(OffsiteDir(cfg, id)) == OffsiteDir(cfg, id) ==> RoomForCopy(cfg, before, id, m)
  {
    hide TrimSpace, NoFileAbove, OffsiteDir, Fewer, WithoutCopy;
  }

  lemma RoomIsTrimmed(cfg: Config, fs: FS, id: string, m: Manifest)
    requires cfg.offsiteRoot != "" && RoomForCopy(cfg, fs, id, m)
    ensures TrimSpace(OffsiteDir(cfg, id)) == OffsiteDir(cfg, id)
  {
    hide TrimSpace, NoFileAbove, OffsiteDir, WithoutCopy;
  }

  lemma NothingFewer(fs: FS)
    ensures Fewer(fs, fs)
  {
  }

  lemma RemovedIsFewer(before: FS, mid: FS, root: string)
    requires Fewer(before, mid)
    ensures Fewer(before, Removed(mid, root))
  {
    FewerTransitive(before, mid, Removed(mid, root));
  }

  /** Where there is room for a copy, no regular file stands above the place that is cleared first. */
  lemma WayToFirst(cfg: Config, fs: FS, id: string, m: Manifest)
    requires cfg.offsiteRoot != "" && TrimSpace(m.offsitePath) != ""
    ensures TrimSpace(TrimSpace(m.offsitePath)) == TrimSpace(m.offsitePath)
    ensures RoomForCopy(cfg, fs, id, m) ==> NoFileAbove(fs, TrimSpace(m.offsitePath))
    ensures WithoutCopy(fs, m) == Removed(fs, TrimSpace(m.offsitePath))
  {
    hide NoFileAbove, OffsiteDir;
    TrimIsSolid(m.offsitePath);
  }

  lemma NoFirst(fs: FS, m: Manifest)
    requires TrimSpace(m.offsitePath) == ""
    ensures WithoutCopy(fs, m) == fs
  {
  }

  /** The mirror is rebuilt exactly when its artifacts are files and there is room once the old one is removed. */
  lemma WhenRebuilt(cfg: Config, before: FS, cleared: FS, id: string, m: Manifest, postgresFile: string,
                    sqliteFile: string)
    requires IsFile(cleared, postgresFile) == IsFile(before, postgresFile)
    requires IsFile(cleared, sqliteFile) == IsFile(before, sqliteFile)
    ensures cleared == WithoutMirror(before, m) ==>
              (CanRebuild(cfg, before, id, m, postgresFile, sqliteFile) <==>
               (id != "" && OfficeMirror.RoomFor(cleared, MirrorDir(cfg, id)) && IsFile(cleared, postgresFile)
                && IsFile(cleared, sqliteFile)))
  {
    hide IsFile, OfficeMirror.RoomFor, WithoutMirror, MirrorDir;
  }

  lemma GoneStaysGone(fs: FS, removed: string, q: string)
    requires q == removed || !Exists(fs, q)
    ensures !Exists(Removed(fs, removed), q)
  {
    var after := Removed(fs, removed);
    forall p | p in after && Under(q, p)
      ensures q != removed && p in fs
    {
      assert SameAt(fs, after, p);
    }
  }
}
