/** The reconciliation of one recovery point, step by step (backend/backup/reconciliation.go:39-485, 574-625). */
module Reconciliation {
  import opened Common
  import opened Text
  import opened FileSystem
  import opened Storage
  import opened RecoveryPoint
  import opened RecoveryEvents
  import opened ReconciliationStages
  import opened ReconciliationPass
  import OfficeMirror
  import Offsite

  class Service {
    const sha: Sha
    const json: Json
    const cfg: Config
    const disk: Disk
    const timeline: Timeline

    constructor (sha: Sha, json: Json, cfg: Config, disk: Disk, timeline: Timeline)
      ensures this.sha == sha && this.json == json && this.cfg == cfg && this.disk == disk && this.timeline == timeline
    {
      this.sha, this.json, this.cfg, this.disk, this.timeline := sha, json, cfg, disk, timeline;
    }

    method Note(id: string, step: Step)
      modifies timeline`events
      ensures timeline.events == old(timeline.events) || timeline.events == old(timeline.events) + [EventOf(id, step)]
      ensures Blank(id) ==> timeline.events == old(timeline.events)
      ensures !Blank(id) && timeline.up ==> timeline.events == old(timeline.events) + [EventOf(id, step)]
    {
      var e := EventOf(id, step);
      StepIsRecorded(id, step);
      timeline.Record(id, e.eventType, e.status, e.component);
    }

    /** The health test the code makes before it trusts a mirror or an offsite copy. */
    method TreeIsHealthy(verified: bool, path: string, sum: string) returns (healthy: bool)
      ensures healthy ==> Sound(sha, disk.fs, verified, path, sum)
      ensures disk.calm ==> healthy == Sound(sha, disk.fs, verified, path, sum)
    {
      if !verified || Blank(path) {
        return false;
      }
      var fault := disk.Fault();
      if fault || !IsDir(disk.fs, path) {
        return false;
      }
      var digest := disk.DirectorySHA256(sha, path);
      healthy := digest.Some? && !Blank(sum) && digest.value == sum;
    }

    /** verifyUnlocked: any read can fail. */
    method VerifyUnlocked(id: string) returns (m: Option<Manifest>)
      ensures m.Some? ==> m == Verified(sha, json, cfg, disk.fs, id)
      ensures disk.calm ==> m == Verified(sha, json, cfg, disk.fs, id)
    {
      if id == "" {
        return None;
      }
      var unreadable := disk.Fault();
      if unreadable {
        return None;
      }
      var stored := StoredManifest(json, cfg, disk.fs, id);
      if stored.None? {
        return None;
      }
      unreadable := disk.Fault();
      if unreadable {
        return None;
      }
      m := Gated(sha, cfg, disk.fs, id, stored.value);
    }

    /** The mirror stage; see MirrorStage. */
    method ReconcileMirror(id: string, m: Manifest, postgresFile: string,
                           sqliteFile: string) returns (r: Option<Manifest>, ghost told: seq<Step>)
      requires Outside(postgresFile, MirrorRoots(cfg, id, m)) && Outside(sqliteFile, MirrorRoots(cfg, id, m))
      requires !Blank(id)
      modifies disk`fs, timeline`events
      ensures MirrorStage(sha, cfg, old(disk.fs), disk.fs, disk.calm, id, m, postgresFile, sqliteFile, r)
      ensures Logged(old(timeline.events), timeline.events, id, timeline.up, told)
      ensures r.None? ==> told == []
      ensures r.Some? ==>
                told == [MirrorRebuilt] || (told == [MirrorVerified] && r == Some(m) && disk.fs == old(disk.fs))
    {
      hide *;
      ghost var before, noted := disk.fs, timeline.events;
      LoggedNone(noted, id, timeline.up);
      SoundMirror(sha, before, m);
      told := [];
      var healthy := TreeIsHealthy(m.mirrorVerified, m.mirrorPath, m.mirrorSHA);
      if healthy {
        HealthyMirrorStage(sha, cfg, before, disk.calm, id, m, postgresFile, sqliteFile);
        Note(id, MirrorVerified);
        LoggedNote(noted, timeline.events, id, timeline.up, MirrorVerified);
        return Some(m), [MirrorVerified];
      }
      var built := RebuildMirror(id, m, postgresFile, sqliteFile);
      RebuiltMirrorStage(sha, cfg, before, disk.fs, disk.calm, id, m, postgresFile, sqliteFile, built);
      r := WithMirror(m, built);
      NoneOrSome(m, built);
      if built.Some? {
        Note(id, MirrorRebuilt);
        LoggedNote(noted, timeline.events, id, timeline.up, MirrorRebuilt);
        told := [MirrorRebuilt];
      }
    }

    method RebuildMirror(id: string, m: Manifest, postgresFile: string, sqliteFile: string)
        returns (built: Option<OfficeMirror.MirrorResult>)
      requires Outside(postgresFile, MirrorRoots(cfg, id, m)) && Outside(sqliteFile, MirrorRoots(cfg, id, m))
      modifies disk`fs
      ensures MirrorRebuild(sha, cfg, old(disk.fs), disk.fs, disk.calm, id, m, postgresFile, sqliteFile, built)
    {
      hide *;
      ghost var before := disk.fs;
      ClearMirror(id, m, postgresFile, sqliteFile);
      ghost var cleared := disk.fs;
      WhenRebuilt(cfg, before, cleared, id, m, postgresFile, sqliteFile);
      OutsideItsMirror(cfg, id, m, postgresFile);
      OutsideItsMirror(cfg, id, m, sqliteFile);
      built := OfficeMirror.CreateOfficeMirror(disk, sha, cfg, id, postgresFile, sqliteFile);
      BuiltAfterClearing(sha, cfg, before, cleared, disk.fs, disk.calm, id, m, postgresFile, sqliteFile, built);
      if built.None? {
        return;
      }
      NotAFile(disk.fs, built.value.path);
      var again := disk.DirectorySHA256(sha, built.value.path);
      if again.None? || again.value != built.value.sum {
        FailedRebuild(sha, cfg, before, disk.fs, id, m, postgresFile, sqliteFile, built);
        return None;
      }
    }

    /** Removes the old mirror; a failure to do so is ignored. */
    method ClearMirror(id: string, m: Manifest, postgresFile: string, sqliteFile: string)
      requires Outside(postgresFile, MirrorRoots(cfg, id, m)) && Outside(sqliteFile, MirrorRoots(cfg, id, m))
      modifies disk`fs
      ensures Kept(old(disk.fs), disk.fs, MirrorRoots(cfg, id, m))
      ensures Read(disk.fs, postgresFile) == Read(old(disk.fs), postgresFile)
              && Read(disk.fs, sqliteFile) == Read(old(disk.fs), sqliteFile)
      ensures IsFile(disk.fs, postgresFile) == IsFile(old(disk.fs), postgresFile)
      ensures IsFile(disk.fs, sqliteFile) == IsFile(old(disk.fs), sqliteFile)
      ensures disk.calm ==> disk.fs == WithoutMirror(old(disk.fs), m)
      ensures disk.calm && m.mirrorPath == MirrorDir(cfg, id) ==> OfficeMirror.Names(disk.fs, MirrorDir(cfg, id)) == {}
    {
      ghost var before := disk.fs;
      ghost var roots := MirrorRoots(cfg, id, m);
      JoinIsNotBlank(cfg.mirrorRoot, id);
      if !Blank(m.mirrorPath) {
        assert Under(m.mirrorPath, m.mirrorPath);
        var ok := disk.RemoveRecoveryTree(m.mirrorPath, before, roots);
        NothingLeft(before, m.mirrorPath);
      }
      FileKept(before, disk.fs, roots, postgresFile);
      FileKept(before, disk.fs, roots, sqliteFile);
    }

    /** The offsite stage; see OffsiteStage. */
    method ReconcileOffsite(id: string, m: Manifest, now: int) returns (r: Option<Manifest>, ghost told: seq<Step>)
      requires ValidConfig(cfg) && Apart(m.mirrorPath, OffsiteRoots(cfg, id, m)) && IsDir(disk.fs, m.mirrorPath)
               && !Blank(id)
      modifies disk`fs, timeline`events
      ensures OffsiteStage(sha, cfg, old(disk.fs), disk.fs, disk.calm, id, m, r)
      ensures Logged(old(timeline.events), timeline.events, id, timeline.up, told)
      ensures told == [] || (told == [OffsiteVerified] && cfg.offsiteRoot != "" && r.Some? && disk.fs == old(disk.fs))
    {
      hide *;
      ghost var before, noted := disk.fs, timeline.events;
      LoggedNone(noted, id, timeline.up);
      told := [];
      if cfg.offsiteRoot == "" {
        UnconfiguredStage(sha, cfg, before, disk.calm, id, m);
        return Some(Cleared(m)), [];
      }
      var healthy := TreeIsHealthy(m.offsiteVerified, m.offsitePath, m.offsiteSHA);
      if healthy {
        HealthyOffsiteStage(sha, cfg, before, disk.calm, id, m);
        Note(id, OffsiteVerified);
        LoggedNote(noted, timeline.events, id, timeline.up, OffsiteVerified);
        return Some(m.(offsiteStatus := "verified")), [OffsiteVerified];
      }
      r := ReplaceOffsite(id, m, now);
    }

    /** Removes what stands in the way of a new copy, and makes it. */
    method ReplaceOffsite(id: string, m: Manifest, now: int) returns (r: Option<Manifest>)
      requires ValidConfig(cfg) && Apart(m.mirrorPath, OffsiteRoots(cfg, id, m)) && IsDir(disk.fs, m.mirrorPath)
      requires cfg.offsiteRoot != ""
      requires disk.calm ==> !Sound(sha, disk.fs, m.offsiteVerified, m.offsitePath, m.offsiteSHA)
      modifies disk`fs
      ensures OffsiteStage(sha, cfg, old(disk.fs), disk.fs, disk.calm, id, m, r)
    {
      hide *;
      ghost var before := disk.fs;
      var ok := ClearOffsite(id, m);
      ghost var cleared := disk.fs;
      if !ok {
        if disk.calm && RoomForCopy(cfg, before, id, m) {
          RoomIsTrimmed(cfg, before, id, m);
        } else if disk.calm {
          NoRoomNoCopy(cfg, before, id, m);
        }
        FailedOffsiteStage(sha, cfg, before, disk.fs, disk.calm, id, m);
        return None;
      }
      AfterClearing(sha, cfg, before, cleared, id, m);
      MirrorApartFromOffsite(cfg, id, m);
      var copy := Offsite.CreateOffsiteCopy(disk, sha, json, cfg, id, m.mirrorPath, now);
      Offsite.CopyOutcomeFacts(sha, json, cfg, cleared, disk.fs, disk.calm, id, m.mirrorPath, now, copy);
      CopyRootsCovered(json, cfg, cleared, disk.fs, id, now, m);
      KeptTransitive(before, cleared, disk.fs, OffsiteRoots(cfg, id, m));
      if !copy.verified {
        NoCopy(cfg, before, cleared, id, m, disk.calm);
        FailedOffsiteStage(sha, cfg, before, disk.fs, disk.calm, id, m);
        return None;
      }
      CopyIsThere(sha, json, cleared, disk.fs, id, m.mirrorPath, copy);
      var again := disk.DirectorySHA256(sha, copy.path);
      if again.None? || again.value != copy.sum {
        FailedOffsiteStage(sha, cfg, before, disk.fs, disk.calm, id, m);
        return None;
      }
      if disk.calm && TrimSpace(OffsiteDir(cfg, id)) == OffsiteDir(cfg, id) {
        CouldCopy(cfg, before, id, m);
      }
      CopiedOffsiteStage(sha, json, cfg, before, cleared, disk.fs, disk.calm, id, m, copy);
      r := Some(WithCopy(m, copy));
    }

    /** Removes the recorded copy and whatever stands at the place of this point's copy. */
    method ClearOffsite(id: string, m: Manifest) returns (ok: bool)
      requires cfg.offsiteRoot != ""
      modifies disk`fs
      ensures Kept(old(disk.fs), disk.fs, OffsiteRoots(cfg, id, m))
      ensures ok ==> !Exists(disk.fs, TrimSpace(OffsiteDir(cfg, id)))
      ensures disk.calm && ok ==> Fewer(WithoutCopy(old(disk.fs), m), disk.fs)
      ensures disk.calm && TrimSpace(OffsiteDir(cfg, id)) == OffsiteDir(cfg, id) ==>
                (ok <==> RoomForCopy(cfg, old(disk.fs), id, m))
    {
      hide *;
      ghost var before := disk.fs;
      ghost var roots := OffsiteRoots(cfg, id, m);
      var paths := [TrimSpace(m.offsitePath), OffsiteDir(cfg, id)];
      var seen: set<string> := {};
      KeptNothing(before, roots);
      NotCleared(cfg, before, id, m);
      for i := 0 to |paths|
        invariant Kept(before, disk.fs, roots)
        invariant forall q :: q in seen ==> !Exists(disk.fs, q)
        invariant disk.calm ==> ClearedSoFar(cfg, before, disk.fs, id, m, i, seen)
        invariant i == 2 ==> TrimSpace(OffsiteDir(cfg, id)) in seen
      {
        var path := TrimSpace(paths[i]);
        CleanupPath(cfg, id, m, paths[i]);
        ghost var mid := disk.fs;
        if disk.calm {
          CleanupStep(cfg, before, mid, id, m, i, seen);
          StepParts(cfg, before, mid, id, m, i, path, seen);
        }
        if path == "" || path in seen {
          continue;
        }
        ok := disk.RemoveRecoveryTree(path, before, roots);
        if !ok {
          return;
        }
        forall q | q in seen + {path}
          ensures !Exists(disk.fs, q)
        {
          GoneStaysGone(mid, path, q);
        }
        seen := seen + {path};
      }
      if disk.calm {
        AllCleared(cfg, before, disk.fs, id, m, seen);
      }
      ok := true;
    }

    /** Everything after the trust gate. */
    method ReconcileTrusted(id: string, m: Manifest, now: int) returns (r: Result<Manifest, Failure>,
                            ghost copies: seq<Step>)
      requires ValidConfig(cfg) && RoundTrips(json) && !Blank(id)
      requires Verified(sha, json, cfg, disk.fs, id) == Some(m) && Separate(cfg, id, m)
      modifies disk`fs, timeline`events
      ensures Outcome(sha, json, cfg, old(disk.fs), disk.fs, disk.calm, id, r)
      ensures Told(old(timeline.events), timeline.events, id, timeline.up, r, copies)
    {
      hide *;
      ghost var fs0, ev0 := disk.fs, timeline.events;
      LoggedNone(ev0, id, timeline.up);
      var unavailable := disk.Fault();
      if unavailable {
        OutcomeOfRefusal(sha, json, cfg, fs0, disk.calm, id, ArtifactUnavailable);
        MirrorOnly(ArtifactUnavailable, []);
        IsTold(ev0, ev0, id, timeline.up, Err(ArtifactUnavailable), []);
        return Err(ArtifactUnavailable), [];
      }
      var postgresFile, sqliteFile := PostgresPath(cfg, id, m), SQLitePath(cfg, id, m);
      TheArtifacts(cfg, id, m);
      ArtifactIsOutside(cfg, id, m, postgresFile);
      ArtifactIsOutside(cfg, id, m, sqliteFile);
      var mirrored;
      mirrored, copies := ReconcileMirror(id, m, postgresFile, sqliteFile);
      ghost var fs1, ev1 := disk.fs, timeline.events;
      if mirrored.None? {
        MirrorStageFailed(sha, json, cfg, id, m, fs0, fs1, disk.calm);
        OnlyMirrors(cfg, id, m, fs0, fs1);
        OutcomeOfFailure(sha, json, cfg, fs0, fs1, disk.calm, id, m, MirrorNotRebuilt);
        MirrorOnly(MirrorNotRebuilt, []);
        IsTold(ev0, ev1, id, timeline.up, Err(MirrorNotRebuilt), []);
        return Err(MirrorNotRebuilt), [];
      }
      MirrorToldParts(ev0, ev1, id, timeline.up, copies);
      IsMirrored(sha, json, cfg, id, m, mirrored.value, fs0, fs1, disk.calm);
      r, copies := ReconcileMirrored(id, m, mirrored.value, now, fs0, ev0, copies);
    }

    /** The offsite stage and what follows. */
    method ReconcileMirrored(id: string, m: Manifest, m1: Manifest, now: int, ghost fs0: FS, ghost ev0: seq<Event>,
                            ghost mirror: seq<Step>)
        returns (r: Result<Manifest, Failure>, ghost copies: seq<Step>)
      requires ValidConfig(cfg) && RoundTrips(json) && !Blank(id)
      requires MirrorTold(ev0, timeline.events, id, timeline.up, mirror)
      requires Mirrored(sha, json, cfg, id, m, m1, fs0, disk.fs, disk.calm)
      modifies disk`fs, timeline`events
      ensures Outcome(sha, json, cfg, fs0, disk.fs, disk.calm, id, r)
      ensures Told(ev0, timeline.events, id, timeline.up, r, copies)
    {
      hide *;
      ghost var fs1, ev1 := disk.fs, timeline.events;
      MirrorToldParts(ev0, ev1, id, timeline.up, mirror);
      MirroredParts(sha, json, cfg, id, m, m1, fs0, fs1, disk.calm);
      MirrorStageFacts(sha, cfg, id, m, m1, fs0, fs1, disk.calm);
      MirrorIsApart(cfg, id, m, m1);
      SameOffsite(m, m1);
      var copied;
      ghost var offsite;
      copied, offsite := ReconcileOffsite(id, m1, now);
      ghost var fs2 := disk.fs;
      KeptNothing(fs2, {ManifestPath(cfg, id)});
      LoggedThen(ev0, ev1, timeline.events, id, timeline.up, mirror, offsite);
      if copied.None? {
        OffsiteStageFailed(sha, json, cfg, id, m, m1, fs0, fs1, fs2, disk.calm);
        ThreeFrames(cfg, id, m, m1, fs0, fs1, fs2, fs2);
        OutcomeOfFailure(sha, json, cfg, fs0, fs2, disk.calm, id, m, OffsiteNotRebuilt);
        NothingAdded(mirror);
        MirrorOnly(OffsiteNotRebuilt, mirror);
        IsTold(ev0, timeline.events, id, timeline.up, Err(OffsiteNotRebuilt), mirror);
        return Err(OffsiteNotRebuilt), mirror;
      }
      TheStages(sha, json, cfg, id, m, m1, copied.value, fs0, fs1, fs2, disk.calm);
      BothStages(mirror, offsite);
      copies := mirror + offsite;
      r := Persist(id, m, m1, copied.value, fs0, fs1, ev0, copies);
    }

    method WriteManifest(id: string, r: Manifest) returns (ok: bool)
      requires Writable(disk.fs, ManifestPath(cfg, id))
      modifies disk`fs
      ensures Kept(old(disk.fs), disk.fs, {ManifestPath(cfg, id)})
      ensures ok ==> ManifestWritten(json, cfg, id, r, old(disk.fs), disk.fs)
      ensures disk.calm ==> ok
    {
      hide *;
      ghost var before := disk.fs;
      var path := ManifestPath(cfg, id);
      InItself(path);
      KeptNothing(before, {path});
      ok := disk.WriteFile(path, json.encode(r), PRIVATE_FILE, before, {path});
      if ok {
        WrittenIs(json, cfg, id, r, before, disk.fs);
      }
    }

    /** Writes the manifest, reads it back and verifies the point once more. */
    method Persist(id: string, ghost m: Manifest, ghost m1: Manifest, m2: Manifest, ghost fs0: FS, ghost fs1: FS,
                   ghost ev0: seq<Event>, ghost copies: seq<Step>) returns (r: Result<Manifest, Failure>)
      requires RoundTrips(json) && !Blank(id)
      requires Staged(sha, json, cfg, id, m, m1, m2, fs0, fs1, disk.fs, disk.calm)
      requires Logged(ev0, timeline.events, id, timeline.up, copies) && AllCopies(copies)
      modifies disk`fs, timeline`events
      ensures Outcome(sha, json, cfg, fs0, disk.fs, disk.calm, id, r)
      ensures Told(ev0, timeline.events, id, timeline.up, r, copies)
    {
      hide *;
      ghost var fs2 := disk.fs;
      var fixed := m2.(status := "verified");
      FullCopies(copies, fixed);
      ManifestIsWritable(sha, json, cfg, id, m, m1, m2, fs0, fs1, fs2, disk.calm);
      var ok := WriteManifest(id, fixed);
      if !ok {
        NotWritten(sha, json, cfg, id, m, m1, m2, fs0, fs1, fs2, disk.fs, disk.calm);
        IsTold(ev0, timeline.events, id, timeline.up, Err(ManifestNotWritten), copies);
        return Err(ManifestNotWritten);
      }
      Concluded(sha, json, cfg, id, m, m1, m2, fs0, fs1, fs2, disk.fs, disk.calm);
      r := FinalGate(id, fixed, fs0, ev0, copies);
    }

    /** Reads the manifest back and verifies the point once more. */
    method FinalGate(id: string, ghost fixed: Manifest, ghost fs0: FS, ghost ev0: seq<Event>, ghost copies: seq<Step>)
        returns (r: Result<Manifest, Failure>)
      requires !Blank(id) && Verified(sha, json, cfg, disk.fs, id) == Some(fixed)
      requires Outcome(sha, json, cfg, fs0, disk.fs, disk.calm, id, Ok(fixed))
      requires Logged(ev0, timeline.events, id, timeline.up, copies) && AllCopies(copies)
      modifies timeline`events
      ensures Outcome(sha, json, cfg, fs0, disk.fs, disk.calm, id, r)
      ensures Told(ev0, timeline.events, id, timeline.up, r, copies)
    {
      hide *;
      ghost var ev2 := timeline.events;
      Note(id, Persisted);
      ghost var ev3 := timeline.events;
      LoggedNote(ev2, ev3, id, timeline.up, Persisted);
      LoggedThen(ev0, ev2, ev3, id, timeline.up, copies, [Persisted]);
      FullCopies(copies, fixed);
      var final := VerifyUnlocked(id);
      if final.None? {
        OutcomeOfLateFailure(sha, json, cfg, fs0, disk.fs, disk.calm, id, fixed);
        IsTold(ev0, ev3, id, timeline.up, Err(FinalVerificationFailed), copies);
        return Err(FinalVerificationFailed);
      }
      Note(id, Completed);
      ghost var ev4 := timeline.events;
      LoggedNote(ev3, ev4, id, timeline.up, Completed);
      LoggedThen(ev0, ev3, ev4, id, timeline.up, copies + [Persisted], [Completed]);
      Note(id, GuardianHealthy);
      LoggedNote(ev4, timeline.events, id, timeline.up, GuardianHealthy);
      LoggedThen(ev0, ev4, timeline.events, id, timeline.up, copies + [Persisted] + [Completed], [GuardianHealthy]);
      r := Ok(final.value);
      IsTold(ev0, timeline.events, id, timeline.up, r, copies);
    }

    /**
      ReconcileRecoveryPoint.  The requires is the layout premise: mirrors, offsite trees, manifest and
      artifacts of a point that verifies lie apart from each other.
     */
    method ReconcileRecoveryPoint(id: string, now: int) returns (r: Result<Manifest, Failure>)
      requires ValidConfig(cfg) && RoundTrips(json)
      requires forall m :: Verified(sha, json, cfg, disk.fs, id) == Some(m) ==> Separate(cfg, id, m)
      modifies disk`fs, timeline`events
      ensures Outcome(sha, json, cfg, old(disk.fs), disk.fs, disk.calm, id, r)
      ensures old(timeline.events) <= timeline.events
      ensures timeline.up ==> Trail(old(timeline.events), timeline.events, id, r)
    {
      hide *;
      ghost var fs0, ev0 := disk.fs, timeline.events;
      Note(id, Started);
      ghost var ev1 := timeline.events;
      if Blank(id) {
        OutcomeOfRefusal(sha, json, cfg, fs0, disk.calm, id, BlankId);
        BlankTrail(ev0, id);
        return Err(BlankId);
      }
      LoggedNote(ev0, ev1, id, timeline.up, Started);
      var verified := VerifyUnlocked(id);
      if verified.None? {
        OutcomeOfRefusal(sha, json, cfg, fs0, disk.calm, id, CoreNotVerified);
        RefusedTrail(ev0, ev1, id, timeline.up);
        return Err(CoreNotVerified);
      }
      Note(id, CoreVerified);
      ghost var ev2 := timeline.events;
      LoggedNote(ev1, ev2, id, timeline.up, CoreVerified);
      LoggedThen(ev0, ev1, ev2, id, timeline.up, [Started], [CoreVerified]);
      ghost var copies;
      r, copies := ReconcileTrusted(id, verified.value, now);
      ToldParts(ev2, timeline.events, id, timeline.up, r, copies);
      OpeningIs(r);
      TrailOfParts(ev0, ev2, timeline.events, id, timeline.up, r, copies);
    }
  }
}
