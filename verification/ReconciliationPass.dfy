/**
  One whole pass of reconciliation: what it does to the disk, what it records, and what follows from that
  (backend/backup/reconciliation.go:39-485).  Live stores are not part of the state it works on.
 */
module ReconciliationPass {
  import opened Common
  import opened Text
  import opened FileSystem
  import opened Storage
  import opened RecoveryPoint
  import opened RecoveryEvents
  import opened ReconciliationStages
  import OfficeMirror
  import Offsite
  import TreeDigest

  datatype Failure =
    | RootUnavailable
    | BlankId
    | CoreNotVerified
    | ArtifactUnavailable
    | MirrorNotRebuilt
    | OffsiteNotRebuilt
    | ManifestNotWritten
    | FinalVerificationFailed

  // ---------------------------------------------------------------- the whole pass

  /** `r` is `m` up to what is said about its copies. */
  predicate SameCore(m: Manifest, r: Manifest) {
    && r.id == m.id && r.createdAt == m.createdAt && r.size == m.size
    && r.postgres == m.postgres && r.sqlite == m.sqlite && r.postgresSHA == m.postgresSHA && r.sqliteSHA == m.sqliteSHA
    && r.offsiteRetentionUntil == m.offsiteRetentionUntil
  }

  /** The recorded copy passes its test, and lies apart from what the mirror stage may change. */
  ghost predicate CopyStays(sha: Sha, cfg: Config, fs: FS, id: string, m: Manifest) {
    CopyStands(sha, cfg, fs, m) && Apart(m.offsitePath, MirrorRoots(cfg, id, m))
  }

  /** A directory stands where the offsite metadata go, in the mirror there will be after the mirror stage. */
  ghost predicate MetadataTaken(sha: Sha, cfg: Config, fs: FS, id: string, m: Manifest) {
    if MirrorSound(sha, fs, m) then IsDir(fs, Offsite.MetadataPath(m.mirrorPath))
    else IsDir(WithoutMirror(fs, m), Offsite.MetadataPath(MirrorDir(cfg, id)))
  }

  /**
    Nothing but a failure keeps a pass over this trusted point from succeeding: its mirror is sound or there is room for
    a new one once the recorded one is removed; and its copy is sound, or there is room for a new one and no directory
    where its metadata go.
   */
  ghost predicate Healable(sha: Sha, cfg: Config, fs: FS, id: string, m: Manifest) {
    && !Blank(id)
    && (MirrorSound(sha, fs, m) || RoomForMirror(cfg, fs, id, m))
    && (cfg.offsiteRoot == "" || CopyStays(sha, cfg, fs, id, m)
        || (RoomForCopy(cfg, fs, id, m) && !MetadataTaken(sha, cfg, fs, id, m)))
  }

  /** Neither offsite path is changed by trimming it. */
  predicate PlainPaths(cfg: Config, id: string, m: Manifest) {
    cfg.offsiteRoot != "" ==>
      TrimSpace(OffsiteDir(cfg, id)) == OffsiteDir(cfg, id) && TrimSpace(m.offsitePath) == m.offsitePath
  }

  /** The core artifacts are byte for byte what they were. */
  predicate ArtifactsKept(cfg: Config, before: FS, after: FS, id: string, m: Manifest) {
    SameFile(before, after, PostgresPath(cfg, id, m)) && SameFile(before, after, SQLitePath(cfg, id, m))
  }

  /** The mirror is the old one, or a new one with the two core artifacts in it. */
  predicate MirrorOfPoint(cfg: Config, before: FS, after: FS, id: string, m: Manifest, r: Manifest) {
    || (r.mirrorPath == m.mirrorPath && r.mirrorSHA == m.mirrorSHA)
    || (&& r.mirrorPath == MirrorDir(cfg, id)
        && OfficeMirror.Held(after, r.mirrorPath) == (Read(before, PostgresPath(cfg, id, m)),
            Read(before, SQLitePath(cfg, id, m))))
  }

  /** The offsite copy is the old one, or a new one with the digest of the mirror. */
  predicate OffsiteOfMirror(cfg: Config, id: string, m: Manifest, r: Manifest) {
    cfg.offsiteRoot != "" ==>
      || (r.offsiteProvider == m.offsiteProvider && r.offsitePath == m.offsitePath && r.offsiteSHA == m.offsiteSHA)
      || (r.offsiteProvider == "filesystem" && r.offsitePath == OffsiteDir(cfg, id) && r.offsiteSHA == r.mirrorSHA)
  }

  /**
    What one pass does.  A point that does not verify is not touched.  Otherwise only its mirrors, its offsite trees
    and its manifest file can change, success means the whole chain is sound on disk, and without failures
    a sound chain is left exactly as it is and a damaged one is healed.
   */
  ghost predicate Outcome(sha: Sha, json: Json, cfg: Config, before: FS, after: FS, calm: bool, id: string,
                          r: Result<Manifest, Failure>) {
    match Verified(sha, json, cfg, before, id)
    case None => r.Err? && after == before
    case Some(m) =>
      && Kept(before, after, Touched(cfg, id, m))
      && ArtifactsKept(cfg, before, after, id, m)
      && (r.Ok? ==> Reconciled(sha, json, cfg, after, id, r.value) && SameCore(m, r.value))
      && (r.Ok? ==> MirrorOfPoint(cfg, before, after, id, m, r.value) && OffsiteOfMirror(cfg, id, m, r.value))
      && (calm && !Blank(id) && Reconciled(sha, json, cfg, before, id, m) ==> r == Ok(m) && after == before)
      && (calm && Healable(sha, cfg, before, id, m) ==> r.Ok?)
      && (calm && PlainPaths(cfg, id, m) && r.Ok? ==> Healable(sha, cfg, before, id, m))
  }

  lemma SoundKept(sha: Sha, a: FS, b: FS, roots: set<string>, verified: bool, path: string, sum: string)
    requires Sound(sha, a, verified, path, sum) && Kept(a, b, roots) && Apart(path, roots)
    ensures Sound(sha, b, verified, path, sum)
  {
    hide Blank;
    assert IsDir(a, path);
    DigestKept(sha, a, b, roots, path);
  }

  lemma ArtifactsOutside(cfg: Config, before: FS, after: FS, id: string, m: Manifest)
    requires Separate(cfg, id, m) && Kept(before, after, Touched(cfg, id, m))
    ensures ArtifactsKept(cfg, before, after, id, m)
  {
    ArtifactIsOutside(cfg, id, m, PostgresPath(cfg, id, m));
    ArtifactIsOutside(cfg, id, m, SQLitePath(cfg, id, m));
    FileKept(before, after, Touched(cfg, id, m), PostgresPath(cfg, id, m));
    FileKept(before, after, Touched(cfg, id, m), SQLitePath(cfg, id, m));
  }

  lemma ArtifactIsOutside(cfg: Config, id: string, m: Manifest, p: string)
    requires Separate(cfg, id, m) && p in Artifacts(cfg, id, m)
    ensures Outside(p, Touched(cfg, id, m)) && Outside(p, MirrorRoots(cfg, id, m))
  {
    hide PostgresPath, SQLitePath, MirrorRoots, OffsiteRoots, ManifestPath, Under;
    forall r | r in Touched(cfg, id, m)
      ensures !Under(r, p)
    {
      assert Disjoint(r, p);
    }
  }

  lemma SamePaths(cfg: Config, id: string, m: Manifest, r: Manifest)
    requires m.postgres == r.postgres && m.sqlite == r.sqlite
    ensures PostgresPath(cfg, id, m) == PostgresPath(cfg, id, r) && SQLitePath(cfg, id, m) == SQLitePath(cfg, id, r)
  {
  }

  lemma GateIsIdempotent(m: Manifest, h: Option<string>, g: Option<string>)
    requires Gate(m, h, g).Some?
    ensures Gate(m, h, g) == Some(m.(status := "verified")) == Gate(m.(status := "verified"), h, g)
  {
  }

  lemma VerifiedIsGated(sha: Sha, json: Json, cfg: Config, fs: FS, id: string, m: Manifest) returns (stored: Manifest)
    requires Verified(sha, json, cfg, fs, id) == Some(m)
    ensures id != "" && Gated(sha, cfg, fs, id, stored) == Some(m)
  {
    hide Gated, StoredManifest;
    stored := StoredManifest(json, cfg, fs, id).value;
  }

  lemma GatedIsVerified(sha: Sha, cfg: Config, fs: FS, id: string, stored: Manifest, m: Manifest)
    requires Gated(sha, cfg, fs, id, stored) == Some(m)
    ensures m == stored.(status := "verified") && Gated(sha, cfg, fs, id, m) == Some(m)
  {
    hide HashAt, PostgresPath, SQLitePath, Gate;
    GateIsIdempotent(stored, HashAt(sha, fs, PostgresPath(cfg, id, stored)),
                     HashAt(sha, fs, SQLitePath(cfg, id, stored)));
    SamePaths(cfg, id, stored, stored.(status := "verified"));
  }

  lemma StatusIsVerified(sha: Sha, json: Json, cfg: Config, fs: FS, id: string, m: Manifest)
    requires Verified(sha, json, cfg, fs, id) == Some(m)
    ensures m.status == "verified" && id != "" && Gated(sha, cfg, fs, id, m) == Some(m)
  {
    hide *;
    var stored := VerifiedIsGated(sha, json, cfg, fs, id, m);
    GatedIsVerified(sha, cfg, fs, id, stored, m);
  }

  lemma GatedSameCore(sha: Sha, cfg: Config, fs: FS, id: string, m: Manifest, r: Manifest)
    requires Gated(sha, cfg, fs, id, m).Some? && SameCore(m, r) && r.status == "verified"
    ensures Gated(sha, cfg, fs, id, r) == Some(r)
  {
    hide HashAt, PostgresPath, SQLitePath;
    SamePaths(cfg, id, m, r);
  }

  /** A manifest written back for an untouched core verifies and is read back as written. */
  lemma PersistedVerifies(sha: Sha, json: Json, cfg: Config, before: FS, after: FS, id: string, m: Manifest,
                          r: Manifest)
    requires RoundTrips(json) && Verified(sha, json, cfg, before, id) == Some(m)
    requires ArtifactsKept(cfg, before, after, id, m)
    requires SameCore(m, r) && r.status == "verified" && Read(after, ManifestPath(cfg, id)) == Some(json.encode(r))
    ensures Verified(sha, json, cfg, after, id) == Some(r)
  {
    hide HashAt, Read, SameCore, Gate, ManifestPath, PostgresPath, SQLitePath;
    StatusIsVerified(sha, json, cfg, before, id, m);
    GatedFrame(sha, cfg, before, after, id, m);
    GatedSameCore(sha, cfg, after, id, m, r);
    assert StoredManifest(json, cfg, after, id) == Some(r);
  }

  lemma OutcomeOfFailure(sha: Sha, json: Json, cfg: Config, before: FS, after: FS, calm: bool, id: string,
                         m: Manifest, f: Failure)
    requires Verified(sha, json, cfg, before, id) == Some(m) && Separate(cfg, id, m)
             && Kept(before, after, Touched(cfg, id, m))
    requires calm ==> !Healable(sha, cfg, before, id, m) && (Blank(id) || !Reconciled(sha, json, cfg, before, id, m))
    ensures Outcome(sha, json, cfg, before, after, calm, id, Err(f))
  {
    hide Verified, Separate, Touched, Healable, Reconciled, Blank, ArtifactsKept, Kept;
    ArtifactsOutside(cfg, before, after, id, m);
  }

  lemma OutcomeOfSuccess(sha: Sha, json: Json, cfg: Config, before: FS, after: FS, calm: bool, id: string,
                         m: Manifest, r: Manifest)
    requires Verified(sha, json, cfg, before, id) == Some(m) && Separate(cfg, id, m)
             && Kept(before, after, Touched(cfg, id, m))
    requires Reconciled(sha, json, cfg, after, id, r) && SameCore(m, r)
    requires MirrorOfPoint(cfg, before, after, id, m, r) && OffsiteOfMirror(cfg, id, m, r)
    requires calm && Reconciled(sha, json, cfg, before, id, m) ==> r == m && after == before
    requires calm && PlainPaths(cfg, id, m) ==> Healable(sha, cfg, before, id, m)
    ensures Outcome(sha, json, cfg, before, after, calm, id, Ok(r))
  {
    hide Verified, Separate, Touched, Healable, Reconciled, Blank, SameCore, ArtifactsKept, Kept, MirrorOfPoint,
        OffsiteOfMirror, PlainPaths;
    ArtifactsOutside(cfg, before, after, id, m);
  }

  lemma OutcomeOfLateFailure(sha: Sha, json: Json, cfg: Config, before: FS, after: FS, calm: bool, id: string,
                             m: Manifest)
    requires Outcome(sha, json, cfg, before, after, calm, id, Ok(m)) && !calm
    ensures Outcome(sha, json, cfg, before, after, calm, id, Err(FinalVerificationFailed))
  {
    hide Verified, Touched, Healable, Reconciled, Kept, ArtifactsKept;
  }

  /** The three frames of a pass add up. */
  lemma ThreeFrames(cfg: Config, id: string, m: Manifest, m1: Manifest, fs0: FS, fs1: FS, fs2: FS, fs3: FS)
    requires Kept(fs0, fs1, MirrorRoots(cfg, id, m)) && Kept(fs1, fs2, OffsiteRoots(cfg, id, m1))
    requires Kept(fs2, fs3, {ManifestPath(cfg, id)}) && m1.offsitePath == m.offsitePath
    ensures Kept(fs0, fs3, Touched(cfg, id, m)) && Kept(fs0, fs2, Touched(cfg, id, m))
    ensures Kept(fs0, fs1, Touched(cfg, id, m))
  {
    hide ManifestPath, MirrorRoots, Kept;
    assert OffsiteRoots(cfg, id, m1) == OffsiteRoots(cfg, id, m);
    hide OffsiteRoots;
    var all := Touched(cfg, id, m);
    KeptMore(fs0, fs1, MirrorRoots(cfg, id, m), all);
    KeptMore(fs1, fs2, OffsiteRoots(cfg, id, m), all);
    KeptMore(fs2, fs3, {ManifestPath(cfg, id)}, all);
    KeptTransitive(fs0, fs1, fs2, all);
    KeptTransitive(fs0, fs2, fs3, all);
  }

  lemma ApartFromAll(a: set<string>, b: set<string>, x: string)
    requires AllDisjoint(a, b) && x in a
    ensures Apart(x, b)
  {
    forall y | y in b
      ensures Disjoint(y, x)
    {
      DisjointSymmetric(x, y);
    }
  }

  /** Neither later stage reaches the mirror. */
  lemma MirrorIsApart(cfg: Config, id: string, m: Manifest, m1: Manifest)
    requires Separate(cfg, id, m) && SameButMirror(m, m1) && !Blank(m1.mirrorPath)
    requires m1 == m || m1.mirrorPath == MirrorDir(cfg, id)
    ensures Apart(m1.mirrorPath, OffsiteRoots(cfg, id, m1)) && Apart(m1.mirrorPath, {ManifestPath(cfg, id)})
  {
    hide Blank, ManifestPath, TrimSpace, Disjoint, OffsiteDir, MirrorDir, Artifacts;
    var mirrors, offsites, manifest := MirrorRoots(cfg, id, m), OffsiteRoots(cfg, id, m), {ManifestPath(cfg, id)};
    assert OffsiteRoots(cfg, id, m1) == offsites;
    assert m1.mirrorPath in mirrors;
    ApartFromAll(mirrors, offsites, m1.mirrorPath);
    ApartFromAll(mirrors + offsites, manifest, m1.mirrorPath);
  }

  /** The manifest write does not reach the offsite copy. */
  lemma OffsiteIsApart(sha: Sha, cfg: Config, id: string, m: Manifest, m2: Manifest)
    requires Separate(cfg, id, m) && cfg.offsiteRoot != "" && !Blank(m2.offsitePath)
    requires m2.offsitePath == m.offsitePath || m2.offsitePath == OffsiteDir(cfg, id)
    ensures Apart(m2.offsitePath, {ManifestPath(cfg, id)})
  {
    hide Blank, ManifestPath, TrimSpace, Artifacts, MirrorRoots;
    var offsites, manifest := MirrorRoots(cfg, id, m) + OffsiteRoots(cfg, id, m), ManifestPath(cfg, id);
    if m2.offsitePath == m.offsitePath {
      DisjointSymmetric(m.offsitePath, manifest);
    } else {
      assert cfg.offsiteRoot in offsites;
      ApartFromAll(offsites, {manifest}, cfg.offsiteRoot);
      JoinIsBelow(cfg.offsiteRoot, id);
      DisjointSymmetric(manifest, cfg.offsiteRoot);
      Offsite.DisjointFromInner(cfg.offsiteRoot, m2.offsitePath, manifest);
      DisjointSymmetric(m2.offsitePath, manifest);
    }
  }

  lemma OffsiteStageFacts(sha: Sha, cfg: Config, before: FS, after: FS, calm: bool, id: string, m: Manifest,
                          r: Manifest)
    requires OffsiteStage(sha, cfg, before, after, calm, id, m, Some(r))
    ensures Kept(before, after, OffsiteRoots(cfg, id, m)) && OffsiteSound(sha, cfg, after, r) && SameButOffsite(m, r)
    ensures cfg.offsiteRoot != "" ==> r.offsitePath == m.offsitePath || r.offsitePath == OffsiteDir(cfg, id)
  {
    hide Kept, OffsiteSound, DigestAt, CanCopy, OffsiteRoots, OffsiteDir, CopyStands, TrimSpace;
  }

  /** The mirror outlives the offsite stage and the manifest write. */
  lemma MirrorChain(sha: Sha, cfg: Config, id: string, m: Manifest, m1: Manifest, m2: Manifest, fs1: FS, fs2: FS,
                    fs3: FS)
    requires Separate(cfg, id, m) && SameButMirror(m, m1) && (m1 == m || m1.mirrorPath == MirrorDir(cfg, id))
    requires MirrorSound(sha, fs1, m1) && Kept(fs1, fs2, OffsiteRoots(cfg, id, m1)) && SameButOffsite(m1, m2)
    requires Kept(fs2, fs3, {ManifestPath(cfg, id)})
    ensures MirrorSound(sha, fs3, m2)
  {
    hide *;
    MirrorSoundIs(sha, fs1, m1);
    MirrorIsApart(cfg, id, m, m1);
    SoundKept(sha, fs1, fs2, OffsiteRoots(cfg, id, m1), m1.mirrorVerified, m1.mirrorPath, m1.mirrorSHA);
    SoundKept(sha, fs2, fs3, {ManifestPath(cfg, id)}, m1.mirrorVerified, m1.mirrorPath, m1.mirrorSHA);
    SameMirror(sha, fs3, m1, m2);
  }

  lemma MirrorSoundIs(sha: Sha, fs: FS, m: Manifest)
    requires MirrorSound(sha, fs, m)
    ensures Sound(sha, fs, m.mirrorVerified, m.mirrorPath, m.mirrorSHA) && !Blank(m.mirrorPath) && m.mirrorPath != ""
            && IsDir(fs, m.mirrorPath)
  {
    hide TreeDigest.Digest;
    assert TrimSpace("") == "";
  }

  lemma SameMirror(sha: Sha, fs: FS, m: Manifest, r: Manifest)
    requires SameButOffsite(m, r) && Sound(sha, fs, m.mirrorVerified, m.mirrorPath, m.mirrorSHA)
    ensures MirrorSound(sha, fs, r)
  {
    hide Sound;
  }

  /** The offsite copy outlives the manifest write. */
  lemma OffsiteChain(sha: Sha, cfg: Config, id: string, m: Manifest, m2: Manifest, fs2: FS, fs3: FS)
    requires Separate(cfg, id, m) && OffsiteSound(sha, cfg, fs2, m2) && Kept(fs2, fs3, {ManifestPath(cfg, id)})
    requires cfg.offsiteRoot != "" ==> m2.offsitePath == m.offsitePath || m2.offsitePath == OffsiteDir(cfg, id)
    ensures OffsiteSound(sha, cfg, fs3, m2)
  {
    hide Separate, Kept, Blank, DigestAt, ManifestPath, OffsiteDir, Apart;
    if cfg.offsiteRoot != "" {
      OffsiteIsApart(sha, cfg, id, m, m2);
      SoundKept(sha, fs2, fs3, {ManifestPath(cfg, id)}, m2.offsiteVerified, m2.offsitePath, m2.offsiteSHA);
    }
  }

  lemma OutcomeOfRefusal(sha: Sha, json: Json, cfg: Config, fs: FS, calm: bool, id: string, f: Failure)
    requires calm ==> Blank(id) || Verified(sha, json, cfg, fs, id).None?
    ensures Outcome(sha, json, cfg, fs, fs, calm, id, Err(f))
  {
    hide Verified, Touched, Reconciled, Blank, Read;
  }

  lemma MirrorStageNone(sha: Sha, cfg: Config, before: FS, after: FS, calm: bool, id: string, m: Manifest, p: string,
                        q: string)
    requires MirrorStage(sha, cfg, before, after, calm, id, m, p, q, None)
    ensures calm ==> !MirrorSound(sha, before, m) && !CanRebuild(cfg, before, id, m, p, q)
    ensures Kept(before, after, MirrorRoots(cfg, id, m))
  {
    hide Kept, MirrorSound, CanRebuild, MirrorRoots, BesideMetadata;
  }

  /** The artifacts of a trusted point are files. */
  lemma TrustedFiles(sha: Sha, json: Json, cfg: Config, fs: FS, id: string, m: Manifest)
    requires Verified(sha, json, cfg, fs, id) == Some(m)
    ensures IsFile(fs, PostgresPath(cfg, id, m)) && IsFile(fs, SQLitePath(cfg, id, m))
  {
    hide StoredManifest, PostgresPath, SQLitePath, Verified;
    StatusIsVerified(sha, json, cfg, fs, id, m);
  }

  lemma HealableMirrors(sha: Sha, json: Json, cfg: Config, fs: FS, id: string, m: Manifest)
    requires Verified(sha, json, cfg, fs, id) == Some(m) && !Blank(id)
    ensures CanRebuild(cfg, fs, id, m, PostgresPath(cfg, id, m), SQLitePath(cfg, id, m)) <==>
              RoomForMirror(cfg, fs, id, m)
  {
    hide *;
    TrustedFiles(sha, json, cfg, fs, id, m);
    IdIsThere(id);
    RebuildIs(cfg, fs, id, m, PostgresPath(cfg, id, m), SQLitePath(cfg, id, m));
  }

  lemma RebuildIs(cfg: Config, fs: FS, id: string, m: Manifest, p: string, q: string)
    requires id != "" && IsFile(fs, p) && IsFile(fs, q)
    ensures CanRebuild(cfg, fs, id, m, p, q) <==> RoomForMirror(cfg, fs, id, m)
  {
    hide IsFile, RoomForMirror;
  }

  /** A stage that fails without a fault of the disk had neither a sound chain nor a point it could heal. */
  lemma MirrorStageFailed(sha: Sha, json: Json, cfg: Config, id: string, m: Manifest, fs0: FS, fs1: FS, calm: bool)
    requires Verified(sha, json, cfg, fs0, id) == Some(m)
    requires MirrorStage(sha, cfg, fs0, fs1, calm, id, m, PostgresPath(cfg, id, m), SQLitePath(cfg, id, m), None)
    ensures calm ==> !Healable(sha, cfg, fs0, id, m) && !Reconciled(sha, json, cfg, fs0, id, m)
    ensures Kept(fs0, fs1, MirrorRoots(cfg, id, m))
  {
    hide *;
    MirrorStageNone(sha, cfg, fs0, fs1, calm, id, m, PostgresPath(cfg, id, m), SQLitePath(cfg, id, m));
    if calm && Healable(sha, cfg, fs0, id, m) {
      HealableParts(sha, cfg, id, m, fs0);
      HealableMirrors(sha, json, cfg, fs0, id, m);
    }
    if calm && Reconciled(sha, json, cfg, fs0, id, m) {
      ReconciledParts(sha, json, cfg, fs0, id, m);
    }
  }

  lemma OffsiteStageNone(sha: Sha, cfg: Config, before: FS, after: FS, calm: bool, id: string, m: Manifest)
    requires OffsiteStage(sha, cfg, before, after, calm, id, m, None)
    ensures calm ==> !OffsiteSound(sha, cfg, before, m) && !CopyStands(sha, cfg, before, m)
    ensures calm ==> !CanCopy(cfg, before, id, m)
    ensures Kept(before, after, OffsiteRoots(cfg, id, m))
  {
    hide Kept, OffsiteSound, CanCopy, OffsiteRoots, CopyStands;
  }

  lemma MirrorStageFixes(sha: Sha, cfg: Config, id: string, m: Manifest, m1: Manifest, fs0: FS, fs1: FS)
    requires MirrorStage(sha, cfg, fs0, fs1, true, id, m, PostgresPath(cfg, id, m), SQLitePath(cfg, id, m), Some(m1))
    requires MirrorSound(sha, fs0, m)
    ensures m1 == m && fs1 == fs0
  {
    hide Kept, PostgresPath, SQLitePath, MirrorDir, MirrorRoots, Read, OfficeMirror.Held, SameButMirror, MirrorSound,
        CanRebuild, OfficeMirror.Names, BesideMetadata;
  }

  lemma ReconciledParts(sha: Sha, json: Json, cfg: Config, fs: FS, id: string, m: Manifest)
    requires Reconciled(sha, json, cfg, fs, id, m)
    ensures MirrorSound(sha, fs, m) && OffsiteSound(sha, cfg, fs, m)
  {
    hide MirrorSound, OffsiteSound, Verified, Read;
  }

  /** Whether a copy can be made is decided before the mirror stage already. */
  lemma CopyBeforeAndAfter(sha: Sha, json: Json, cfg: Config, id: string, m: Manifest, m1: Manifest, fs0: FS, fs1: FS)
    requires Verified(sha, json, cfg, fs0, id) == Some(m) && Separate(cfg, id, m) && !Blank(id)
    requires MirrorStage(sha, cfg, fs0, fs1, true, id, m, PostgresPath(cfg, id, m), SQLitePath(cfg, id, m), Some(m1))
    ensures MirrorSound(sha, fs0, m) || RoomForMirror(cfg, fs0, id, m)
    ensures CanCopy(cfg, fs1, id, m1) <==>
              cfg.offsiteRoot == "" || (RoomForCopy(cfg, fs0, id, m) && !MetadataTaken(sha, cfg, fs0, id, m))
  {
    hide *;
    MirrorStageFacts(sha, cfg, id, m, m1, fs0, fs1, true);
    SameOffsite(m, m1);
    RoomForCopyKept(cfg, id, m, m1, fs0, fs1);
    if MirrorSound(sha, fs0, m) {
      MirrorStageFixes(sha, cfg, id, m, m1, fs0, fs1);
    } else {
      MirrorStageRebuilds(sha, cfg, fs0, fs1, id, m, PostgresPath(cfg, id, m), SQLitePath(cfg, id, m), m1);
      HealableMirrors(sha, json, cfg, fs0, id, m);
    }
    TakenIs(sha, cfg, fs0, id, m);
    IdIsThere(id);
    CopyableIs(cfg, fs1, id, m1);
  }

  lemma IdIsThere(id: string)
    requires !Blank(id)
    ensures id != ""
  {
    assert TrimSpace("") == "";
  }

  lemma TakenIs(sha: Sha, cfg: Config, fs: FS, id: string, m: Manifest)
    ensures MetadataTaken(sha, cfg, fs, id, m)
         == if MirrorSound(sha, fs, m) then IsDir(fs, Offsite.MetadataPath(m.mirrorPath))
            else IsDir(WithoutMirror(fs, m), Offsite.MetadataPath(MirrorDir(cfg, id)))
  {
    hide MirrorSound, IsDir, WithoutMirror, MirrorDir, Offsite.MetadataPath;
  }

  lemma CopyableIs(cfg: Config, fs: FS, id: string, m: Manifest)
    requires id != "" && m.mirrorPath != "" && IsDir(fs, m.mirrorPath)
    ensures CanCopy(cfg, fs, id, m) <==>
              cfg.offsiteRoot == "" || (RoomForCopy(cfg, fs, id, m) && !IsDir(fs, Offsite.MetadataPath(m.mirrorPath)))
  {
    hide IsDir, Offsite.MetadataPath, NoFileAbove, WithoutCopy, OffsiteDir, TrimSpace;
  }

  lemma HealableParts(sha: Sha, cfg: Config, id: string, m: Manifest, fs: FS)
    ensures Healable(sha, cfg, fs, id, m) <==>
              && !Blank(id) && (MirrorSound(sha, fs, m) || RoomForMirror(cfg, fs, id, m))
              && (cfg.offsiteRoot == "" || CopyStays(sha, cfg, fs, id, m)
                  || (RoomForCopy(cfg, fs, id, m) && !MetadataTaken(sha, cfg, fs, id, m)))
  {
    hide MirrorSound, RoomForMirror, CopyStays, RoomForCopy, MetadataTaken, Blank;
  }

  lemma MirrorStageRebuilds(sha: Sha, cfg: Config, before: FS, after: FS, id: string, m: Manifest, p: string, q: string,
                            r: Manifest)
    requires MirrorStage(sha, cfg, before, after, true, id, m, p, q, Some(r)) && !MirrorSound(sha, before, m)
    ensures CanRebuild(cfg, before, id, m, p, q) && r.mirrorPath == MirrorDir(cfg, id)
    ensures DirsNear(before, after, MirrorDir(cfg, id))
    ensures IsDir(after, Offsite.MetadataPath(MirrorDir(cfg, id)))
        <==> IsDir(WithoutMirror(before, m), Offsite.MetadataPath(MirrorDir(cfg, id)))
  {
    hide Kept, MirrorDir, MirrorRoots, Read, OfficeMirror.Held, SameButMirror, MirrorSound, CanRebuild,
        OfficeMirror.Names,
        IsDir, Offsite.MetadataPath, DirsNear, WithoutMirror;
  }

  /** The mirror stage changes nothing above the places of the offsite copies. */
  lemma RoomForCopyKept(cfg: Config, id: string, m: Manifest, m1: Manifest, fs0: FS, fs1: FS)
    requires Kept(fs0, fs1, MirrorRoots(cfg, id, m)) && Separate(cfg, id, m) && m1.offsitePath == m.offsitePath
    ensures RoomForCopy(cfg, fs0, id, m) <==> RoomForCopy(cfg, fs1, id, m1)
  {
    hide Kept, NoFileAbove, MirrorRoots, Artifacts, ManifestPath, TrimSpace, Disjoint, OffsiteDir, OffsiteRoots;
    var mirrors, offsites := MirrorRoots(cfg, id, m), OffsiteRoots(cfg, id, m);
    var first, second := TrimSpace(m.offsitePath), OffsiteDir(cfg, id);
    if cfg.offsiteRoot != "" && TrimSpace(second) == second {
      OffsiteRootsAre(cfg, id, m);
      ApartFromOthers(mirrors, offsites, second);
      SameAbove(fs0, fs1, mirrors, second);
      if first != "" {
        ApartFromOthers(mirrors, offsites, first);
        SameAbove(fs0, fs1, mirrors, first);
        SameAboveRemoved(fs0, fs1, mirrors, first, second);
      }
    }
  }

  lemma SameAbove(a: FS, b: FS, roots: set<string>, p: string)
    requires Kept(a, b, roots) && Apart(p, roots)
    ensures NoFileAbove(a, p) <==> NoFileAbove(b, p)
  {
    forall k | 0 <= k < |p| && p[k] == '/'
      ensures IsFile(a, p[..k]) == IsFile(b, p[..k])
    {
      AboveIsOutside(roots, p, k);
      FileKept(a, b, roots, p[..k]);
    }
  }

  lemma AboveIsOutside(roots: set<string>, p: string, k: nat)
    requires Apart(p, roots) && k < |p| && p[k] == '/'
    ensures Outside(p[..k], roots)
  {
    assert Below(p[..k], p);
    forall r | r in roots
      ensures !Under(r, p[..k])
    {
      if Under(r, p[..k]) {
        UnderTransitive(r, p[..k], p);
      }
    }
  }

  /** The same once another tree is removed from both. */
  lemma SameAboveRemoved(a: FS, b: FS, roots: set<string>, removed: string, p: string)
    requires Kept(a, b, roots) && Apart(p, roots)
    ensures NoFileAbove(Removed(a, removed), p) <==> NoFileAbove(Removed(b, removed), p)
  {
    forall k | 0 <= k < |p| && p[k] == '/'
      ensures IsFile(Removed(a, removed), p[..k]) == IsFile(Removed(b, removed), p[..k])
    {
      AboveIsOutside(roots, p, k);
      FileKept(a, b, roots, p[..k]);
      RemovedFile(a, removed, p[..k]);
      RemovedFile(b, removed, p[..k]);
    }
  }

  lemma RemovedFile(fs: FS, removed: string, q: string)
    ensures IsFile(Removed(fs, removed), q) <==> IsFile(fs, q) && !Under(removed, q)
  {
    var after := Removed(fs, removed);
    if !Under(removed, q) {
      assert SameAt(fs, after, q);
    }
  }

  lemma OffsiteRootsAre(cfg: Config, id: string, m: Manifest)
    requires cfg.offsiteRoot != ""
    ensures TrimSpace(OffsiteDir(cfg, id)) in OffsiteRoots(cfg, id, m)
    ensures TrimSpace(m.offsitePath) != "" ==> TrimSpace(m.offsitePath) in OffsiteRoots(cfg, id, m)
  {
    hide TrimSpace, OffsiteDir;
  }

  lemma ApartFromOthers(a: set<string>, b: set<string>, x: string)
    requires AllDisjoint(a, b) && x in b
    ensures Apart(x, a)
  {
  }

  /** A tree that lies apart from the mirrors has the same digest after the mirror stage as before. */
  lemma DigestStays(sha: Sha, cfg: Config, fs0: FS, fs1: FS, id: string, m: Manifest, path: string)
    requires Kept(fs0, fs1, MirrorRoots(cfg, id, m)) && Apart(path, MirrorRoots(cfg, id, m))
    requires DirsNear(fs0, fs1, MirrorDir(cfg, id))
    ensures DigestAt(sha, fs0, path) == DigestAt(sha, fs1, path)
  {
    hide *;
    NoNewDirHere(fs0, fs1, cfg, id, m, path);
    if IsDir(fs0, path) {
      DigestKept(sha, fs0, fs1, MirrorRoots(cfg, id, m), path);
    } else {
      NoDigest(sha, fs0, path);
      NoDigest(sha, fs1, path);
    }
  }

  lemma NoDigest(sha: Sha, fs: FS, path: string)
    requires !IsDir(fs, path)
    ensures DigestAt(sha, fs, path) == None
  {
  }

  lemma SameTest(sha: Sha, cfg: Config, fs0: FS, fs1: FS, m: Manifest, m1: Manifest)
    requires SameButMirror(m, m1) && DigestAt(sha, fs0, m.offsitePath) == DigestAt(sha, fs1, m.offsitePath)
    ensures CopyStands(sha, cfg, fs0, m) <==> CopyStands(sha, cfg, fs1, m1)
  {
    hide DigestAt, Blank;
  }

  lemma NoNewDirHere(a: FS, b: FS, cfg: Config, id: string, m: Manifest, path: string)
    requires DirsNear(a, b, MirrorDir(cfg, id)) && Apart(path, MirrorRoots(cfg, id, m))
    ensures IsDir(b, path) ==> IsDir(a, path)
  {
    assert MirrorDir(cfg, id) in MirrorRoots(cfg, id, m);
    NoNewDirApart(a, b, MirrorDir(cfg, id), path, path);
  }

  lemma OffsiteStageFailed(sha: Sha, json: Json, cfg: Config, id: string, m: Manifest, m1: Manifest, fs0: FS, fs1: FS,
                          fs2: FS, calm: bool)
    requires Verified(sha, json, cfg, fs0, id) == Some(m) && Separate(cfg, id, m) && !Blank(id)
    requires MirrorStage(sha, cfg, fs0, fs1, calm, id, m, PostgresPath(cfg, id, m), SQLitePath(cfg, id, m), Some(m1))
    requires OffsiteStage(sha, cfg, fs1, fs2, calm, id, m1, None)
    ensures calm ==> !Healable(sha, cfg, fs0, id, m) && !Reconciled(sha, json, cfg, fs0, id, m)
    ensures Kept(fs1, fs2, OffsiteRoots(cfg, id, m1))
  {
    hide *;
    OffsiteStageNone(sha, cfg, fs1, fs2, calm, id, m1);
    if calm {
      CopyBeforeAndAfter(sha, json, cfg, id, m, m1, fs0, fs1);
      HealableParts(sha, cfg, id, m, fs0);
      StandsBeforeAndAfter(sha, cfg, id, m, m1, fs0, fs1);
    }
    if calm && Reconciled(sha, json, cfg, fs0, id, m) {
      ReconciledParts(sha, json, cfg, fs0, id, m);
      MirrorStageFixes(sha, cfg, id, m, m1, fs0, fs1);
    }
  }

  lemma StandsBeforeAndAfter(sha: Sha, cfg: Config, id: string, m: Manifest, m1: Manifest, fs0: FS, fs1: FS)
    requires MirrorStage(sha, cfg, fs0, fs1, true, id, m, PostgresPath(cfg, id, m), SQLitePath(cfg, id, m), Some(m1))
    ensures CopyStays(sha, cfg, fs0, id, m) ==> CopyStands(sha, cfg, fs1, m1)
    ensures CopyStands(sha, cfg, fs1, m1) && Apart(m.offsitePath, MirrorRoots(cfg, id, m)) ==>
              CopyStays(sha, cfg, fs0, id, m)
  {
    hide *;
    StaysIs(sha, cfg, fs0, id, m);
    MirrorStageFacts(sha, cfg, id, m, m1, fs0, fs1, true);
    if Apart(m.offsitePath, MirrorRoots(cfg, id, m)) {
      if MirrorSound(sha, fs0, m) {
        MirrorStageFixes(sha, cfg, id, m, m1, fs0, fs1);
      } else {
        MirrorStageRebuilds(sha, cfg, fs0, fs1, id, m, PostgresPath(cfg, id, m), SQLitePath(cfg, id, m), m1);
        DigestStays(sha, cfg, fs0, fs1, id, m, m.offsitePath);
        SameTest(sha, cfg, fs0, fs1, m, m1);
      }
    }
  }

  lemma StaysIs(sha: Sha, cfg: Config, fs: FS, id: string, m: Manifest)
    ensures CopyStays(sha, cfg, fs, id, m) <==>
              CopyStands(sha, cfg, fs, m) && Apart(m.offsitePath, MirrorRoots(cfg, id, m))
  {
    hide CopyStands, Apart, MirrorRoots;
  }

  /** A pass that gets through both stages was over a healable point. */
  lemma StagedIsHealable(sha: Sha, json: Json, cfg: Config, id: string, m: Manifest, m1: Manifest, m2: Manifest,
                         fs0: FS, fs1: FS, fs2: FS)
    requires Verified(sha, json, cfg, fs0, id) == Some(m) && Separate(cfg, id, m) && !Blank(id)
    requires PlainPaths(cfg, id, m)
    requires MirrorStage(sha, cfg, fs0, fs1, true, id, m, PostgresPath(cfg, id, m), SQLitePath(cfg, id, m), Some(m1))
    requires OffsiteStage(sha, cfg, fs1, fs2, true, id, m1, Some(m2))
    ensures Healable(sha, cfg, fs0, id, m)
  {
    hide *;
    CopyBeforeAndAfter(sha, json, cfg, id, m, m1, fs0, fs1);
    HealableParts(sha, cfg, id, m, fs0);
    if cfg.offsiteRoot != "" {
      OffsiteStageMeans(sha, cfg, fs1, fs2, id, m, m1, m2);
      StandsBeforeAndAfter(sha, cfg, id, m, m1, fs0, fs1);
      if CopyStands(sha, cfg, fs1, m1) {
        MirrorStageFacts(sha, cfg, id, m, m1, fs0, fs1, true);
        StandingIsApart(sha, cfg, fs1, id, m, m1);
      }
    }
  }

  lemma OffsiteStageMeans(sha: Sha, cfg: Config, before: FS, after: FS, id: string, m: Manifest, m1: Manifest,
                          r: Manifest)
    requires OffsiteStage(sha, cfg, before, after, true, id, m1, Some(r)) && cfg.offsiteRoot != ""
    requires PlainPaths(cfg, id, m)
    ensures CopyStands(sha, cfg, before, m1) || CanCopy(cfg, before, id, m1)
  {
    hide Kept, OffsiteSound, CanCopy, OffsiteRoots, CopyStands, DigestAt, OffsiteDir, TrimSpace;
  }

  lemma StandingIsApart(sha: Sha, cfg: Config, fs: FS, id: string, m: Manifest, m1: Manifest)
    requires CopyStands(sha, cfg, fs, m1) && SameButMirror(m, m1) && PlainPaths(cfg, id, m) && Separate(cfg, id, m)
    ensures Apart(m.offsitePath, MirrorRoots(cfg, id, m))
  {
    hide DigestAt, Disjoint, ManifestPath, Artifacts, OffsiteDir, TrimSpace, OffsiteRoots, MirrorRoots;
    assert TrimSpace(m.offsitePath) != "";
    OffsiteRootsAre(cfg, id, m);
    ApartFromOthers(MirrorRoots(cfg, id, m), OffsiteRoots(cfg, id, m), m.offsitePath);
  }

  lemma MirrorStageParts(sha: Sha, cfg: Config, before: FS, after: FS, calm: bool, id: string, m: Manifest, p: string,
                         q: string, r: Manifest)
    requires MirrorStage(sha, cfg, before, after, calm, id, m, p, q, Some(r))
    ensures Kept(before, after, MirrorRoots(cfg, id, m)) && MirrorSound(sha, after, r) && SameButMirror(m, r)
    ensures r == m || r.mirrorPath == MirrorDir(cfg, id)
  {
    hide Kept, MirrorDir, MirrorRoots, Read, OfficeMirror.Held, SameButMirror, MirrorSound, CanRebuild,
        OfficeMirror.Names,
        BesideMetadata;
  }

  lemma MirrorStageFacts(sha: Sha, cfg: Config, id: string, m: Manifest, m1: Manifest, fs0: FS, fs1: FS, calm: bool)
    requires MirrorStage(sha, cfg, fs0, fs1, calm, id, m, PostgresPath(cfg, id, m), SQLitePath(cfg, id, m), Some(m1))
    ensures Kept(fs0, fs1, MirrorRoots(cfg, id, m)) && MirrorSound(sha, fs1, m1) && SameButMirror(m, m1)
    ensures m1 == m || m1.mirrorPath == MirrorDir(cfg, id)
    ensures IsDir(fs1, m1.mirrorPath) && !Blank(m1.mirrorPath) && m1.mirrorPath != ""
  {
    hide *;
    MirrorStageParts(sha, cfg, fs0, fs1, calm, id, m, PostgresPath(cfg, id, m), SQLitePath(cfg, id, m), m1);
    MirrorSoundIs(sha, fs1, m1);
  }

  lemma OffsiteStageFixes(sha: Sha, cfg: Config, before: FS, after: FS, id: string, m: Manifest, r: Manifest)
    requires OffsiteStage(sha, cfg, before, after, true, id, m, Some(r)) && OffsiteSound(sha, cfg, before, m)
    ensures r == m && after == before
  {
    hide Kept, OffsiteRoots, OffsiteSound, CanCopy, DigestAt, OffsiteDir, SameButOffsite, CopyStands, TrimSpace;
  }

  lemma WrittenSame(json: Json, cfg: Config, id: string, m: Manifest, fs: FS, after: FS)
    requires ManifestWritten(json, cfg, id, m, fs, after) && Read(fs, ManifestPath(cfg, id)) == Some(json.encode(m))
    ensures after == fs
  {
    hide Kept, ManifestPath;
  }

  lemma ReconciledText(sha: Sha, json: Json, cfg: Config, fs: FS, id: string, m: Manifest)
    requires Reconciled(sha, json, cfg, fs, id, m)
    ensures Read(fs, ManifestPath(cfg, id)) == Some(json.encode(m)) && Verified(sha, json, cfg, fs, id) == Some(m)
  {
    hide MirrorSound, OffsiteSound, Verified, Read;
  }

  /** Run again on a sound chain, every stage hands the manifest through and the write puts back what is there. */
  lemma NothingToDo(sha: Sha, json: Json, cfg: Config, id: string, m: Manifest, m1: Manifest, m2: Manifest, fs0: FS,
                    fs1: FS, fs2: FS, fs3: FS)
    requires MirrorStage(sha, cfg, fs0, fs1, true, id, m, PostgresPath(cfg, id, m), SQLitePath(cfg, id, m), Some(m1))
    requires OffsiteStage(sha, cfg, fs1, fs2, true, id, m1, Some(m2))
    requires Reconciled(sha, json, cfg, fs0, id, m)
    requires ManifestWritten(json, cfg, id, m2.(status := "verified"), fs2, fs3)
    ensures m2.(status := "verified") == m && fs3 == fs0
  {
    hide *;
    ReconciledParts(sha, json, cfg, fs0, id, m);
    ReconciledText(sha, json, cfg, fs0, id, m);
    StatusIsVerified(sha, json, cfg, fs0, id, m);
    MirrorStageFixes(sha, cfg, id, m, m1, fs0, fs1);
    OffsiteStageFixes(sha, cfg, fs0, fs2, id, m, m2);
    assert m.(status := "verified") == m;
    WrittenSame(json, cfg, id, m, fs0, fs3);
  }

  lemma SameCoreOf(m: Manifest, m1: Manifest, m2: Manifest)
    requires SameButMirror(m, m1) && SameButOffsite(m1, m2)
    ensures SameCore(m, m2.(status := "verified"))
            && m2.(status := "verified") == (if m.status == "verified" then m2 else m2.(status := "verified"))
  {
  }

  // ---------------------------------------------------------------- what is recorded

  /** What is noted about the copies, by how far the pass got. */
  predicate Copies(r: Result<Manifest, Failure>, copies: seq<Step>) {
    if r.Err? && !r.error.OffsiteNotRebuilt? && !r.error.ManifestNotWritten?
        && !r.error.FinalVerificationFailed? then copies == []
    else if r.Err? && r.error.OffsiteNotRebuilt? then copies == [MirrorVerified] || copies == [MirrorRebuilt]
    else AllCopies(copies)
  }

  /** The mirror stage notes one step, the offsite stage only that it found a sound copy. */
  predicate AllCopies(copies: seq<Step>) {
    || copies == [MirrorVerified] || copies == [MirrorVerified, OffsiteVerified]
    || copies == [MirrorRebuilt] || copies == [MirrorRebuilt, OffsiteVerified]
  }

  /** What is noted once the manifest is written. */
  function Ending(r: Result<Manifest, Failure>): seq<Step> {
    match r
    case Ok(_) => [Persisted, Completed, GuardianHealthy]
    case Err(FinalVerificationFailed) => [Persisted]
    case Err(_) => []
  }

  function Opening(r: Result<Manifest, Failure>): seq<Step> {
    if r.Err? && r.error.CoreNotVerified? then [Started] else [Started, CoreVerified]
  }

  /** The events of one pass over a timeline that loses nothing. */
  ghost predicate Trail(before: seq<Event>, after: seq<Event>, id: string, r: Result<Manifest, Failure>) {
    if Blank(id) then after == before
    else exists copies {:trigger Copies(r, copies)} ::
      Copies(r, copies) && after == before + Events(id, Opening(r) + copies + Ending(r))
  }

  /** What is recorded after the opening of a pass that ends in `r`. */
  ghost predicate Told(before: seq<Event>, after: seq<Event>, id: string, up: bool, r: Result<Manifest, Failure>,
                       copies: seq<Step>) {
    && Logged(before, after, id, up, copies + Ending(r)) && Copies(r, copies)
    && (r.Err? ==> !r.error.CoreNotVerified?)
  }

  lemma IsTold(before: seq<Event>, after: seq<Event>, id: string, up: bool, r: Result<Manifest, Failure>,
               copies: seq<Step>)
    requires Logged(before, after, id, up, copies + Ending(r)) && Copies(r, copies)
    requires r.Err? ==> !r.error.CoreNotVerified?
    ensures Told(before, after, id, up, r, copies)
  {
    hide Logged, Copies, Ending;
  }

  lemma ToldParts(before: seq<Event>, after: seq<Event>, id: string, up: bool, r: Result<Manifest, Failure>,
                  copies: seq<Step>)
    requires Told(before, after, id, up, r, copies)
    ensures Logged(before, after, id, up, copies + Ending(r)) && Copies(r, copies)
    ensures r.Err? ==> !r.error.CoreNotVerified?
  {
    hide Logged, Copies, Ending;
  }

  /** The mirror stage has noted its one step. */
  ghost predicate MirrorTold(before: seq<Event>, after: seq<Event>, id: string, up: bool, mirror: seq<Step>) {
    Logged(before, after, id, up, mirror) && (mirror == [MirrorVerified] || mirror == [MirrorRebuilt])
  }

  lemma MirrorToldParts(before: seq<Event>, after: seq<Event>, id: string, up: bool, mirror: seq<Step>)
    ensures MirrorTold(before, after, id, up, mirror) <==>
              Logged(before, after, id, up, mirror) && (mirror == [MirrorVerified] || mirror == [MirrorRebuilt])
  {
    hide Logged;
  }

  /** The parts of a pass add up to its trail. */
  lemma TrailOfParts(ev0: seq<Event>, ev2: seq<Event>, ev3: seq<Event>, id: string, up: bool, r: Result<Manifest,
                     Failure>, copies: seq<Step>)
    requires Logged(ev0, ev2, id, up, Opening(r)) && Logged(ev2, ev3, id, up, copies + Ending(r))
             && Copies(r, copies) && !Blank(id)
    ensures ev0 <= ev3 && (up ==> Trail(ev0, ev3, id, r))
  {
    LoggedThen(ev0, ev2, ev3, id, up, Opening(r), copies + Ending(r));
    hide EventOf, Blank, Copies, Opening, Ending;
    assert Opening(r) + (copies + Ending(r)) == Opening(r) + copies + Ending(r);
  }

  lemma OpeningIs(r: Result<Manifest, Failure>)
    requires r.Err? ==> !r.error.CoreNotVerified?
    ensures Opening(r) == [Started] + [CoreVerified]
  {
  }

  lemma RefusedTrail(ev0: seq<Event>, ev1: seq<Event>, id: string, up: bool)
    requires Logged(ev0, ev1, id, up, [Started]) && !Blank(id)
    ensures ev0 <= ev1 && (up ==> Trail(ev0, ev1, id, Err(CoreNotVerified)))
  {
    LoggedNone(ev1, id, up);
    assert Copies(Err(CoreNotVerified), []) && [] + Ending(Err(CoreNotVerified)) == [];
    TrailOfParts(ev0, ev1, ev1, id, up, Err(CoreNotVerified), []);
  }

  lemma BlankTrail(ev0: seq<Event>, id: string)
    requires Blank(id)
    ensures Trail(ev0, ev0, id, Err(BlankId))
  {
  }

  lemma MirrorOnly(f: Failure, copies: seq<Step>)
    requires if f.OffsiteNotRebuilt? then copies == [MirrorVerified] || copies == [MirrorRebuilt]
             else (f.ArtifactUnavailable? || f.MirrorNotRebuilt?) && copies == []
    ensures Copies(Err(f), copies) && copies + Ending(Err(f)) == copies
  {
  }

  lemma NothingAdded(steps: seq<Step>)
    ensures steps + [] == steps
  {
  }

  lemma BothStages(mirror: seq<Step>, offsite: seq<Step>)
    requires mirror == [MirrorVerified] || mirror == [MirrorRebuilt]
    requires offsite == [] || offsite == [OffsiteVerified]
    ensures AllCopies(mirror + offsite)
  {
    if offsite == [] {
      assert mirror + offsite == mirror;
    } else {
      assert mirror + offsite == [mirror[0], OffsiteVerified];
    }
  }

  lemma FullCopies(copies: seq<Step>, m: Manifest)
    requires AllCopies(copies)
    ensures Copies(Err(ManifestNotWritten), copies) && copies + Ending(Err(ManifestNotWritten)) == copies
    ensures Copies(Err(FinalVerificationFailed), copies)
            && copies + Ending(Err(FinalVerificationFailed)) == copies + [Persisted]
    ensures Copies(Ok(m), copies) && copies + Ending(Ok(m)) == copies + [Persisted] + [Completed] + [GuardianHealthy]
  {
    hide AllCopies;
  }

  /** What the two stages leave and the write adds. */
  ghost predicate Staged(sha: Sha, json: Json, cfg: Config, id: string, m: Manifest, m1: Manifest, m2: Manifest,
                         fs0: FS, fs1: FS, fs2: FS, calm: bool) {
    && Verified(sha, json, cfg, fs0, id) == Some(m) && Separate(cfg, id, m)
    && MirrorStage(sha, cfg, fs0, fs1, calm, id, m, PostgresPath(cfg, id, m), SQLitePath(cfg, id, m), Some(m1))
    && OffsiteStage(sha, cfg, fs1, fs2, calm, id, m1, Some(m2))
  }

  ghost predicate ManifestWritten(json: Json, cfg: Config, id: string, r: Manifest, fs2: FS, fs3: FS) {
    var p := ManifestPath(cfg, id);
    Writable(fs2, p) && fs3 == Written(fs2, p, json.encode(r), PRIVATE_FILE) && Kept(fs2, fs3, {p})
  }

  lemma StagedFrame(sha: Sha, json: Json, cfg: Config, id: string, m: Manifest, m1: Manifest, m2: Manifest,
                    fs0: FS, fs1: FS, fs2: FS, fs3: FS, calm: bool)
    requires Staged(sha, json, cfg, id, m, m1, m2, fs0, fs1, fs2, calm) && Kept(fs2, fs3, {ManifestPath(cfg, id)})
    ensures Kept(fs0, fs3, Touched(cfg, id, m))
    ensures SameCore(m, m2.(status := "verified"))
  {
    hide *;
    StagedParts(sha, json, cfg, id, m, m1, m2, fs0, fs1, fs2, calm);
    MirrorStageFacts(sha, cfg, id, m, m1, fs0, fs1, calm);
    OffsiteStageFacts(sha, cfg, fs1, fs2, calm, id, m1, m2);
    SameOffsite(m, m1);
    SameCoreOf(m, m1, m2);
    ThreeFrames(cfg, id, m, m1, fs0, fs1, fs2, fs3);
  }

  lemma StagedParts(sha: Sha, json: Json, cfg: Config, id: string, m: Manifest, m1: Manifest, m2: Manifest,
                    fs0: FS, fs1: FS, fs2: FS, calm: bool)
    requires Staged(sha, json, cfg, id, m, m1, m2, fs0, fs1, fs2, calm)
    ensures Verified(sha, json, cfg, fs0, id) == Some(m) && Separate(cfg, id, m)
    ensures MirrorStage(sha, cfg, fs0, fs1, calm, id, m, PostgresPath(cfg, id, m), SQLitePath(cfg, id, m), Some(m1))
    ensures OffsiteStage(sha, cfg, fs1, fs2, calm, id, m1, Some(m2))
  {
    hide Verified, Separate, MirrorStage, OffsiteStage, PostgresPath, SQLitePath;
  }

  lemma WrittenFrame(json: Json, cfg: Config, id: string, r: Manifest, fs2: FS, fs3: FS)
    requires ManifestWritten(json, cfg, id, r, fs2, fs3)
    ensures Kept(fs2, fs3, {ManifestPath(cfg, id)}) && Read(fs3, ManifestPath(cfg, id)) == Some(json.encode(r))
  {
    hide Kept, ManifestPath;
  }

  lemma StagedIsSound(sha: Sha, json: Json, cfg: Config, id: string, m: Manifest, m1: Manifest, m2: Manifest,
                      fs0: FS, fs1: FS, fs2: FS, fs3: FS, calm: bool)
    requires Staged(sha, json, cfg, id, m, m1, m2, fs0, fs1, fs2, calm) && Kept(fs2, fs3, {ManifestPath(cfg, id)})
    ensures MirrorSound(sha, fs3, m2) && OffsiteSound(sha, cfg, fs3, m2)
  {
    hide *;
    StagedParts(sha, json, cfg, id, m, m1, m2, fs0, fs1, fs2, calm);
    MirrorStageFacts(sha, cfg, id, m, m1, fs0, fs1, calm);
    OffsiteStageFacts(sha, cfg, fs1, fs2, calm, id, m1, m2);
    SameOffsite(m, m1);
    MirrorChain(sha, cfg, id, m, m1, m2, fs1, fs2, fs3);
    OffsiteChain(sha, cfg, id, m, m2, fs2, fs3);
  }

  lemma HeldKept(a: FS, b: FS, roots: set<string>, dir: string)
    requires Kept(a, b, roots) && Apart(dir, roots)
    ensures OfficeMirror.Held(b, dir) == OfficeMirror.Held(a, dir)
  {
    hide Kept, Apart, Read, IsFile, SameFile;
    OfficeMirror.Layout(dir);
    var p, q := OfficeMirror.MirrorPostgres(dir), OfficeMirror.MirrorSQLite(dir);
    assert Under(dir, p) && Under(dir, q);
    ApartMeansOutside(dir, roots, p);
    ApartMeansOutside(dir, roots, q);
    ReadKept(a, b, roots, p);
    ReadKept(a, b, roots, q);
  }

  lemma MirrorStageHeld(sha: Sha, cfg: Config, before: FS, after: FS, calm: bool, id: string, m: Manifest, p: string,
                        q: string, r: Manifest)
    requires MirrorStage(sha, cfg, before, after, calm, id, m, p, q, Some(r))
    ensures r == m || (r.mirrorPath == MirrorDir(cfg, id) && OfficeMirror.Held(after,
            r.mirrorPath) == (Read(before, p), Read(before, q)))
  {
    hide Kept, MirrorDir, MirrorRoots, Read, OfficeMirror.Held, SameButMirror, MirrorSound, CanRebuild,
        OfficeMirror.Names,
        BesideMetadata;
  }

  lemma OffsiteStageDigest(sha: Sha, cfg: Config, before: FS, after: FS, calm: bool, id: string, m: Manifest,
                           r: Manifest)
    requires OffsiteStage(sha, cfg, before, after, calm, id, m, Some(r)) && cfg.offsiteRoot != ""
    ensures || (&& r.offsiteProvider == m.offsiteProvider && r.offsitePath == m.offsitePath
                && r.offsiteSHA == m.offsiteSHA)
            || (&& r.offsiteProvider == "filesystem" && r.offsitePath == OffsiteDir(cfg, id)
                && DigestAt(sha, before, m.mirrorPath) == Some(r.offsiteSHA))
  {
    hide Kept, OffsiteSound, DigestAt, CanCopy, OffsiteRoots, OffsiteDir, SameButOffsite, CopyStands, TrimSpace;
  }

  lemma SoundDigest(sha: Sha, fs: FS, m: Manifest)
    requires MirrorSound(sha, fs, m)
    ensures DigestAt(sha, fs, m.mirrorPath) == Some(m.mirrorSHA)
  {
    hide DigestAt, Blank;
  }

  lemma StagedMirror(sha: Sha, json: Json, cfg: Config, id: string, m: Manifest, m1: Manifest, m2: Manifest,
                     fs0: FS, fs1: FS, fs2: FS, fs3: FS, calm: bool)
    requires Staged(sha, json, cfg, id, m, m1, m2, fs0, fs1, fs2, calm) && Kept(fs2, fs3, {ManifestPath(cfg, id)})
    ensures MirrorOfPoint(cfg, fs0, fs3, id, m, m2.(status := "verified"))
  {
    hide *;
    StagedParts(sha, json, cfg, id, m, m1, m2, fs0, fs1, fs2, calm);
    MirrorStageFacts(sha, cfg, id, m, m1, fs0, fs1, calm);
    OffsiteStageFacts(sha, cfg, fs1, fs2, calm, id, m1, m2);
    MirrorIsApart(cfg, id, m, m1);
    HeldKept(fs1, fs2, OffsiteRoots(cfg, id, m1), m1.mirrorPath);
    HeldKept(fs2, fs3, {ManifestPath(cfg, id)}, m1.mirrorPath);
    MirrorStageHeld(sha, cfg, fs0, fs1, calm, id, m, PostgresPath(cfg, id, m), SQLitePath(cfg, id, m), m1);
    IsMirrorOfPoint(cfg, fs0, fs3, id, m, m1, m2);
  }

  lemma IsMirrorOfPoint(cfg: Config, before: FS, after: FS, id: string, m: Manifest, m1: Manifest, m2: Manifest)
    requires SameButOffsite(m1, m2)
    requires m1 == m || (m1.mirrorPath == MirrorDir(cfg, id)
               && OfficeMirror.Held(after, m1.mirrorPath) == (Read(before, PostgresPath(cfg, id, m)),
                   Read(before, SQLitePath(cfg, id, m))))
    ensures MirrorOfPoint(cfg, before, after, id, m, m2.(status := "verified"))
  {
    hide OfficeMirror.Held, Read, MirrorDir, PostgresPath, SQLitePath;
  }

  lemma StagedOffsite(sha: Sha, json: Json, cfg: Config, id: string, m: Manifest, m1: Manifest, m2: Manifest,
                      fs0: FS, fs1: FS, fs2: FS, calm: bool)
    requires Staged(sha, json, cfg, id, m, m1, m2, fs0, fs1, fs2, calm)
    ensures OffsiteOfMirror(cfg, id, m, m2.(status := "verified"))
  {
    hide *;
    StagedParts(sha, json, cfg, id, m, m1, m2, fs0, fs1, fs2, calm);
    MirrorStageFacts(sha, cfg, id, m, m1, fs0, fs1, calm);
    SoundDigest(sha, fs1, m1);
    OffsiteStageFacts(sha, cfg, fs1, fs2, calm, id, m1, m2);
    if cfg.offsiteRoot != "" {
      OffsiteStageDigest(sha, cfg, fs1, fs2, calm, id, m1, m2);
    }
    IsOffsiteOfMirror(cfg, id, m, m1, m2);
  }

  lemma IsOffsiteOfMirror(cfg: Config, id: string, m: Manifest, m1: Manifest, m2: Manifest)
    requires SameButMirror(m, m1) && SameButOffsite(m1, m2)
    requires cfg.offsiteRoot != "" ==>
               || (&& m2.offsiteProvider == m1.offsiteProvider && m2.offsitePath == m1.offsitePath
                   && m2.offsiteSHA == m1.offsiteSHA)
               || (&& m2.offsiteProvider == "filesystem" && m2.offsitePath == OffsiteDir(cfg, id)
                   && m2.offsiteSHA == m1.mirrorSHA)
    ensures OffsiteOfMirror(cfg, id, m, m2.(status := "verified"))
  {
    hide OffsiteDir;
  }

  /** A pass that wrote the manifest: what is on disk now. */
  lemma Concluded(sha: Sha, json: Json, cfg: Config, id: string, m: Manifest, m1: Manifest, m2: Manifest,
                  fs0: FS, fs1: FS, fs2: FS, fs3: FS, calm: bool)
    requires !Blank(id) && RoundTrips(json) && Staged(sha, json, cfg, id, m, m1, m2, fs0, fs1, fs2, calm)
    requires ManifestWritten(json, cfg, id, m2.(status := "verified"), fs2, fs3)
    ensures Verified(sha, json, cfg, fs3, id) == Some(m2.(status := "verified"))
    ensures Outcome(sha, json, cfg, fs0, fs3, calm, id, Ok(m2.(status := "verified")))
  {
    hide *;
    var r := m2.(status := "verified");
    StagedParts(sha, json, cfg, id, m, m1, m2, fs0, fs1, fs2, calm);
    WrittenFrame(json, cfg, id, r, fs2, fs3);
    StagedFrame(sha, json, cfg, id, m, m1, m2, fs0, fs1, fs2, fs3, calm);
    ArtifactsOutside(cfg, fs0, fs3, id, m);
    PersistedVerifies(sha, json, cfg, fs0, fs3, id, m, r);
    StagedIsSound(sha, json, cfg, id, m, m1, m2, fs0, fs1, fs2, fs3, calm);
    StatusIsNotRead(sha, json, cfg, fs3, id, m2);
    StagedMirror(sha, json, cfg, id, m, m1, m2, fs0, fs1, fs2, fs3, calm);
    StagedOffsite(sha, json, cfg, id, m, m1, m2, fs0, fs1, fs2, calm);
    if calm && Reconciled(sha, json, cfg, fs0, id, m) {
      NothingToDo(sha, json, cfg, id, m, m1, m2, fs0, fs1, fs2, fs3);
    }
    if calm && PlainPaths(cfg, id, m) {
      StagedIsHealable(sha, json, cfg, id, m, m1, m2, fs0, fs1, fs2);
    }
    OutcomeOfSuccess(sha, json, cfg, fs0, fs3, calm, id, m, r);
  }

  lemma SameOffsite(m: Manifest, m1: Manifest)
    requires SameButMirror(m, m1)
    ensures m1.offsitePath == m.offsitePath
  {
  }

  lemma SoundWithStatus(sha: Sha, cfg: Config, fs: FS, m: Manifest, status: string)
    requires MirrorSound(sha, fs, m) && OffsiteSound(sha, cfg, fs, m)
    ensures MirrorSound(sha, fs, m.(status := status)) && OffsiteSound(sha, cfg, fs, m.(status := status))
  {
    hide Sound;
  }

  lemma StatusIsNotRead(sha: Sha, json: Json, cfg: Config, fs: FS, id: string, m: Manifest)
    requires MirrorSound(sha, fs, m) && OffsiteSound(sha, cfg, fs, m)
    requires Verified(sha, json, cfg, fs, id) == Some(m.(status := "verified"))
    requires Read(fs, ManifestPath(cfg, id)) == Some(json.encode(m.(status := "verified")))
    ensures Reconciled(sha, json, cfg, fs, id, m.(status := "verified"))
  {
    hide Verified, MirrorSound, OffsiteSound, Read, ManifestPath;
    SoundWithStatus(sha, cfg, fs, m, "verified");
  }

  /** A trusted point whose mirror stage succeeded. */
  ghost predicate Mirrored(sha: Sha, json: Json, cfg: Config, id: string, m: Manifest, m1: Manifest, fs0: FS, fs1: FS,
                          calm: bool) {
    && Verified(sha, json, cfg, fs0, id) == Some(m) && Separate(cfg, id, m)
    && MirrorStage(sha, cfg, fs0, fs1, calm, id, m, PostgresPath(cfg, id, m), SQLitePath(cfg, id, m), Some(m1))
  }

  lemma IsMirrored(sha: Sha, json: Json, cfg: Config, id: string, m: Manifest, m1: Manifest, fs0: FS, fs1: FS,
                   calm: bool)
    requires Verified(sha, json, cfg, fs0, id) == Some(m) && Separate(cfg, id, m)
    requires MirrorStage(sha, cfg, fs0, fs1, calm, id, m, PostgresPath(cfg, id, m), SQLitePath(cfg, id, m), Some(m1))
    ensures Mirrored(sha, json, cfg, id, m, m1, fs0, fs1, calm)
  {
    hide Verified, Separate, MirrorStage, PostgresPath, SQLitePath;
  }

  lemma MirroredParts(sha: Sha, json: Json, cfg: Config, id: string, m: Manifest, m1: Manifest, fs0: FS, fs1: FS,
                      calm: bool)
    requires Mirrored(sha, json, cfg, id, m, m1, fs0, fs1, calm)
    ensures Verified(sha, json, cfg, fs0, id) == Some(m) && Separate(cfg, id, m)
    ensures MirrorStage(sha, cfg, fs0, fs1, calm, id, m, PostgresPath(cfg, id, m), SQLitePath(cfg, id, m), Some(m1))
  {
    hide Verified, Separate, MirrorStage, PostgresPath, SQLitePath;
  }

  lemma TheStages(sha: Sha, json: Json, cfg: Config, id: string, m: Manifest, m1: Manifest, m2: Manifest,
                  fs0: FS, fs1: FS, fs2: FS, calm: bool)
    requires Verified(sha, json, cfg, fs0, id) == Some(m) && Separate(cfg, id, m)
    requires MirrorStage(sha, cfg, fs0, fs1, calm, id, m, PostgresPath(cfg, id, m), SQLitePath(cfg, id, m), Some(m1))
    requires OffsiteStage(sha, cfg, fs1, fs2, calm, id, m1, Some(m2))
    ensures Staged(sha, json, cfg, id, m, m1, m2, fs0, fs1, fs2, calm)
  {
    hide Verified, Separate, MirrorStage, OffsiteStage, PostgresPath, SQLitePath;
  }

  lemma NoManifestNoPoint(sha: Sha, json: Json, cfg: Config, fs: FS, n: string)
    requires Verified(sha, json, cfg, fs, n).Some?
    ensures IsFile(fs, ManifestPath(cfg, n))
  {
    hide Gated, ManifestPath;
  }

  /** The manifest of a verified point is a file, and stays one until it is written. */
  lemma ManifestIsWritable(sha: Sha, json: Json, cfg: Config, id: string, m: Manifest, m1: Manifest, m2: Manifest,
                           fs0: FS, fs1: FS, fs2: FS, calm: bool)
    requires Staged(sha, json, cfg, id, m, m1, m2, fs0, fs1, fs2, calm)
    ensures Writable(fs2, ManifestPath(cfg, id))
  {
    hide *;
    StagedParts(sha, json, cfg, id, m, m1, m2, fs0, fs1, fs2, calm);
    NoManifestNoPoint(sha, json, cfg, fs0, id);
    MirrorStageFacts(sha, cfg, id, m, m1, fs0, fs1, calm);
    OffsiteStageFacts(sha, cfg, fs1, fs2, calm, id, m1, m2);
    ManifestIsOutside(cfg, id, m, m1);
    FileKept(fs0, fs1, MirrorRoots(cfg, id, m), ManifestPath(cfg, id));
    FileKept(fs1, fs2, OffsiteRoots(cfg, id, m1), ManifestPath(cfg, id));
    FileIsWritable(fs2, ManifestPath(cfg, id));
  }

  lemma FileIsWritable(fs: FS, p: string)
    requires IsFile(fs, p)
    ensures Writable(fs, p)
  {
    PresentIsClear(fs, p);
  }

  lemma ManifestIsOutside(cfg: Config, id: string, m: Manifest, m1: Manifest)
    requires Separate(cfg, id, m) && SameButMirror(m, m1)
    ensures Outside(ManifestPath(cfg, id), MirrorRoots(cfg, id, m))
    ensures Outside(ManifestPath(cfg, id), OffsiteRoots(cfg, id, m1))
  {
    hide ManifestPath, Under, MirrorDir, OffsiteDir, TrimSpace, Blank, Artifacts;
    assert OffsiteRoots(cfg, id, m1) == OffsiteRoots(cfg, id, m);
    hide MirrorRoots, OffsiteRoots;
    var p := ManifestPath(cfg, id);
    forall r | r in MirrorRoots(cfg, id, m) + OffsiteRoots(cfg, id, m)
      ensures !Under(r, p)
    {
      assert Disjoint(r, p);
    }
  }

  lemma WrittenIs(json: Json, cfg: Config, id: string, r: Manifest, fs2: FS, fs3: FS)
    requires Writable(fs2, ManifestPath(cfg, id))
    requires fs3 == Written(fs2, ManifestPath(cfg, id), json.encode(r), PRIVATE_FILE)
             && Kept(fs2, fs3, {ManifestPath(cfg, id)})
    ensures ManifestWritten(json, cfg, id, r, fs2, fs3)
  {
    hide Kept, ManifestPath;
  }

  /** A pass whose manifest could not be written. */
  lemma NotWritten(sha: Sha, json: Json, cfg: Config, id: string, m: Manifest, m1: Manifest, m2: Manifest,
                   fs0: FS, fs1: FS, fs2: FS, fs3: FS, calm: bool)
    requires Staged(sha, json, cfg, id, m, m1, m2, fs0, fs1, fs2, calm) && Kept(fs2, fs3, {ManifestPath(cfg, id)})
    requires !calm
    ensures Outcome(sha, json, cfg, fs0, fs3, calm, id, Err(ManifestNotWritten))
  {
    hide *;
    StagedFrame(sha, json, cfg, id, m, m1, m2, fs0, fs1, fs2, fs3, calm);
    StagedParts(sha, json, cfg, id, m, m1, m2, fs0, fs1, fs2, calm);
    OutcomeOfFailure(sha, json, cfg, fs0, fs3, calm, id, m, ManifestNotWritten);
  }

  lemma TheArtifacts(cfg: Config, id: string, m: Manifest)
    ensures PostgresPath(cfg, id, m) in Artifacts(cfg, id, m) && SQLitePath(cfg, id, m) in Artifacts(cfg, id, m)
  {
  }

  lemma OnlyMirrors(cfg: Config, id: string, m: Manifest, fs0: FS, fs1: FS)
    requires Kept(fs0, fs1, MirrorRoots(cfg, id, m))
    ensures Kept(fs0, fs1, Touched(cfg, id, m))
  {
    hide Kept, MirrorRoots;
    KeptMore(fs0, fs1, MirrorRoots(cfg, id, m), Touched(cfg, id, m));
  }

  // ---------------------------------------------------------------- what a pass means

  /** Reconciling a reconciled point again, undisturbed, changes nothing and returns the same manifest. */
  lemma RunningAgainChangesNothing(sha: Sha, json: Json, cfg: Config, fs0: FS, fs1: FS, fs2: FS, calm: bool,
                          id: string, m: Manifest,
                                   r: Result<Manifest, Failure>)
    requires Outcome(sha, json, cfg, fs0, fs1, calm, id, Ok(m)) && !Blank(id)
    requires Outcome(sha, json, cfg, fs1, fs2, true, id, r)
    ensures r == Ok(m) && fs2 == fs1
  {
    hide Kept, Touched, ArtifactsKept, Healable, SameCore;
    ReconciledText(sha, json, cfg, fs1, id, m);
  }

  /** Whatever happens, no file outside the mirrors, the offsite trees and the manifest changes, appears or vanishes. */
  lemma OtherFilesStay(sha: Sha, json: Json, cfg: Config, before: FS, after: FS, calm: bool, id: string,
                       r: Result<Manifest, Failure>, p: string)
    requires Outcome(sha, json, cfg, before, after, calm, id, r)
    requires forall m :: Verified(sha, json, cfg, before, id) == Some(m) ==> Outside(p, Touched(cfg, id, m))
    ensures SameFile(before, after, p)
  {
    hide Touched, ArtifactsKept, Healable, Reconciled, Verified;
    match Verified(sha, json, cfg, before, id)
    case None =>
    case Some(m) => FileKept(before, after, Touched(cfg, id, m), p);
  }

  /** A trusted point with a damaged mirror or offsite copy is whole again after one undisturbed pass. */
  lemma OnePassHeals(sha: Sha, json: Json, cfg: Config, before: FS, after: FS, id: string, m: Manifest,
                     r: Result<Manifest, Failure>)
    requires Outcome(sha, json, cfg, before, after, true, id, r)
    requires Verified(sha, json, cfg, before, id) == Some(m) && Healable(sha, cfg, before, id, m)
    ensures r.Ok? && MirrorSound(sha, after, r.value) && OffsiteSound(sha, cfg, after, r.value)
    ensures Verified(sha, json, cfg, after, id) == Some(r.value)
  {
    hide Kept, Touched, ArtifactsKept, Healable, SameCore, Reconciled, PlainPaths;
    ReconciledParts(sha, json, cfg, after, id, r.value);
    ReconciledText(sha, json, cfg, after, id, r.value);
  }

  /** An undisturbed pass over a trusted point succeeds exactly when the point is healable. */
  lemma HealsIffHealable(sha: Sha, json: Json, cfg: Config, before: FS, after: FS, id: string, m: Manifest,
                         r: Result<Manifest, Failure>)
    requires Outcome(sha, json, cfg, before, after, true, id, r)
    requires Verified(sha, json, cfg, before, id) == Some(m) && PlainPaths(cfg, id, m)
    ensures r.Ok? <==> Healable(sha, cfg, before, id, m)
  {
    hide Kept, Touched, ArtifactsKept, Healable, SameCore, Reconciled, PlainPaths, Verified;
  }
}
