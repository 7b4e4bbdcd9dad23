/**
  Choosing the recovery point: the listing the status report reads, and the point reconciliation picks
  (backend/backup/backup_service.go:756-789, backend/backup/reconciliation.go:505-572).
 */
module LatestPoint {
  import opened Common
  import opened Text
  import opened FileSystem
  import opened Storage
  import opened RecoveryPoint
  import opened RecoveryEvents
  import opened ReconciliationStages
  import opened ReconciliationPass
  import opened Reconciliation
  import opened Order

  /** The entries of the backup root, in the order ReadDir returns them. */
  ghost function Entries(cfg: Config, fs: FS): seq<string> {
    SortedNames(DirNames(fs, cfg.backupRoot))
  }

  /** The manifests of the entries that verify. */
  function Listed(sha: Sha, json: Json, cfg: Config, fs: FS, names: seq<string>): seq<Manifest> {
    if names == [] then []
    else
      var before := Listed(sha, json, cfg, fs, names[..|names| - 1]);
      match Verified(sha, json, cfg, fs, names[|names| - 1])
      case None => before
      case Some(m) => before + [m]
  }

  /** The listing of two runs of entries is their listings, one after the other. */
  lemma {:induction false} ListedSplits(sha: Sha, json: Json, cfg: Config, fs: FS, a: seq<string>, b: seq<string>)
    ensures Listed(sha, json, cfg, fs, a + b) == Listed(sha, json, cfg, fs, a) + Listed(sha, json, cfg, fs, b)
  {
    hide Verified;
    if b == [] {
      assert a + b == a;
    } else {
      assert (a + b)[..|a + b| - 1] == a + b[..|b| - 1];
      ListedSplits(sha, json, cfg, fs, a, b[..|b| - 1]);
    }
  }

  /** One entry is listed with its manifest if it verifies, and not at all otherwise. */
  lemma ListedOne(sha: Sha, json: Json, cfg: Config, fs: FS, n: string)
    ensures Listed(sha, json, cfg, fs, [n])
         == match Verified(sha, json, cfg, fs, n) case None => [] case Some(m) => [m]
  {
    hide Verified;
    assert [n][..0] == [];
  }

  /** The last of these entries that verifies. */
  function LastTrusted(sha: Sha, json: Json, cfg: Config, fs: FS, names: seq<string>): Option<string> {
    if names == [] then None
    else if Verified(sha, json, cfg, fs, names[|names| - 1]).Some? then Some(names[|names| - 1])
    else LastTrusted(sha, json, cfg, fs, names[..|names| - 1])
  }

  /** The listing ends with the point that is picked. */
  lemma {:induction false} PickedIsListedLast(sha: Sha, json: Json, cfg: Config, fs: FS, names: seq<string>)
    ensures var picked, listed := LastTrusted(sha, json, cfg, fs, names), Listed(sha, json, cfg, fs, names);
            if picked.None? then listed == []
            else listed != [] && Verified(sha, json, cfg, fs, picked.value) == Some(listed[|listed| - 1])
  {
    hide Verified;
    if names != [] {
      PickedIsListedLast(sha, json, cfg, fs, names[..|names| - 1]);
    }
  }

  /** The point that is picked is the greatest that verifies. */
  lemma {:induction false} PickedIsGreatest(sha: Sha, json: Json, cfg: Config, fs: FS, names: seq<string>, n: string)
    requires Ascending(names) && LastTrusted(sha, json, cfg, fs, names).Some?
    requires n in names && Verified(sha, json, cfg, fs, n).Some?
    ensures var id := LastTrusted(sha, json, cfg, fs, names).value; id in names && (n == id || Less(n, id))
  {
    hide Verified, Less;
    var rest, last := names[..|names| - 1], names[|names| - 1];
    assert names == rest + [last];
    var i :| 0 <= i < |names| && names[i] == n;
    if Verified(sha, json, cfg, fs, last).None? {
      assert n in rest;
      PickedIsGreatest(sha, json, cfg, fs, rest, n);
    }
  }

  /** Nothing is picked only if nothing verifies. */
  lemma {:induction false} NothingPicked(sha: Sha, json: Json, cfg: Config, fs: FS, names: seq<string>)
    requires LastTrusted(sha, json, cfg, fs, names).None?
    ensures forall n :: n in names ==> Verified(sha, json, cfg, fs, n).None?
  {
    hide Verified;
    if names != [] {
      NothingPicked(sha, json, cfg, fs, names[..|names| - 1]);
      assert names == names[..|names| - 1] + [names[|names| - 1]];
    }
  }

  /** The greatest entry that verifies is the one that is picked. */
  lemma GreatestIsPicked(sha: Sha, json: Json, cfg: Config, fs: FS, names: seq<string>, id: string)
    requires Ascending(names) && id in names && Verified(sha, json, cfg, fs, id).Some?
    requires forall n :: n in names && Verified(sha, json, cfg, fs, n).Some? ==> n == id || Less(n, id)
    ensures LastTrusted(sha, json, cfg, fs, names) == Some(id)
  {
    hide Verified, Less;
    var picked := LastTrusted(sha, json, cfg, fs, names);
    if picked.None? {
      NothingPicked(sha, json, cfg, fs, names);
    } else {
      PickedIsGreatest(sha, json, cfg, fs, names, id);
      PickedVerifies(sha, json, cfg, fs, names);
      if picked.value != id {
        LessTransitive(id, picked.value, id);
        LessIrreflexive(id);
      }
    }
  }

  lemma {:induction false} PickedVerifies(sha: Sha, json: Json, cfg: Config, fs: FS, names: seq<string>)
    requires LastTrusted(sha, json, cfg, fs, names).Some?
    ensures var id := LastTrusted(sha, json, cfg, fs, names).value;
            id in names && Verified(sha, json, cfg, fs, id).Some?
  {
    hide Verified;
    if Verified(sha, json, cfg, fs, names[|names| - 1]).None? {
      PickedVerifies(sha, json, cfg, fs, names[..|names| - 1]);
    }
  }

  lemma OneMore(sha: Sha, json: Json, cfg: Config, fs: FS, names: seq<string>, i: nat)
    requires i < |names|
    ensures Listed(sha, json, cfg, fs, names[..i + 1])
         == Listed(sha, json, cfg, fs, names[..i]) + OneListed(Verified(sha, json, cfg, fs, names[i]))
    ensures LastTrusted(sha, json, cfg, fs, names[..i + 1])
         == if Verified(sha, json, cfg, fs, names[i]).Some? then Some(names[i]) else LastTrusted(sha, json, cfg, fs,
             names[..i])
  {
    hide Verified;
    var upTo := names[..i + 1];
    assert upTo[|upTo| - 1] == names[i] && upTo[..|upTo| - 1] == names[..i];
  }

  function OneListed(m: Option<Manifest>): seq<Manifest> {
    if m.None? then [] else [m.value]
  }

  /** List.  The listing fails where the backup root is a regular file, or lies below one. */
  method List(s: Service) returns (r: Option<seq<Manifest>>)
    ensures s.disk.calm ==>
              r == if Passable(s.disk.fs, s.cfg.backupRoot)
                   then Some(Listed(s.sha, s.json, s.cfg, s.disk.fs, Entries(s.cfg, s.disk.fs))) else None
    ensures r.Some? ==> Passable(s.disk.fs, s.cfg.backupRoot)
    ensures r.Some? ==> forall i :: 0 <= i < |r.value| ==> IsPoint(s.sha, s.json, s.cfg, s.disk.fs, r.value[i])
  {
    hide *;
    EntriesAre(s.cfg, s.disk.fs);
    var listed := s.disk.ReadDir(s.cfg.backupRoot);
    if listed.None? {
      return None;
    }
    var names := listed.value;
    var result: seq<Manifest> := [];
    NoneListed(s.sha, s.json, s.cfg, s.disk.fs);
    assert names[..0] == [];
    for i := 0 to |names|
      invariant s.disk.calm ==> result == Listed(s.sha, s.json, s.cfg, s.disk.fs, names[..i])
      invariant forall j :: 0 <= j < |result| ==> IsPoint(s.sha, s.json, s.cfg, s.disk.fs, result[j])
    {
      OneMore(s.sha, s.json, s.cfg, s.disk.fs, names, i);
      var m := s.VerifyUnlocked(names[i]);
      OneListedIs(m);
      if m.Some? {
        IsAPoint(s.sha, s.json, s.cfg, s.disk.fs, names[i], m.value);
      }
      result := result + OneListed(m);
    }
    assert names[..|names|] == names;
    r := Some(result);
  }

  lemma OneListedIs(m: Option<Manifest>)
    ensures OneListed(m) == if m.None? then [] else [m.value]
  {
  }

  lemma NoneListed(sha: Sha, json: Json, cfg: Config, fs: FS)
    ensures Listed(sha, json, cfg, fs, []) == []
  {
  }

  lemma IsAPoint(sha: Sha, json: Json, cfg: Config, fs: FS, n: string, m: Manifest)
    requires Verified(sha, json, cfg, fs, n) == Some(m)
    ensures IsPoint(sha, json, cfg, fs, m)
  {
    hide Verified;
  }

  /** The manifest of some entry that verifies. */
  ghost predicate IsPoint(sha: Sha, json: Json, cfg: Config, fs: FS, m: Manifest) {
    exists n :: Verified(sha, json, cfg, fs, n) == Some(m)
  }

  /** The answer about one point as an answer about the latest. */
  function Reported(r: Result<Manifest, Failure>): Result<Option<Manifest>, Failure> {
    match r
    case Ok(m) => Ok(Some(m))
    case Err(f) => Err(f)
  }

  /**
    ReconcileLatestRecoveryPoint.  What it does is one pass over the entry it picks, and without failures that is
    the greatest entry that verifies; it returns no manifest and no error only when it picks none, and fails where the
    backup root cannot be listed.
   */
  method ReconcileLatest(s: Service, now: int)
      returns (r: Result<Option<Manifest>, Failure>, ghost picked: Option<string>,
                                                        ghost passed: Result<Manifest, Failure>)
    requires ValidConfig(s.cfg) && RoundTrips(s.json)
    requires PointsSeparate(s.sha, s.json, s.cfg, s.disk.fs)
    modifies s.disk`fs, s.timeline`events
    ensures s.disk.calm ==> picked == LastTrusted(s.sha, s.json, s.cfg, old(s.disk.fs), Entries(s.cfg, old(s.disk.fs)))
    ensures picked.None? ==> s.disk.fs == old(s.disk.fs) && s.timeline.events == old(s.timeline.events)
    ensures picked.None? ==> r == Ok(None) || r == Err(RootUnavailable)
    ensures picked.None? && s.disk.calm ==> (r == Ok(None) <==> Passable(old(s.disk.fs), s.cfg.backupRoot))
    ensures picked.Some? ==> r == Reported(passed)
    ensures picked.Some? ==> Outcome(s.sha, s.json, s.cfg, old(s.disk.fs), s.disk.fs, s.disk.calm, picked.value, passed)
    ensures picked.Some? ==> Verified(s.sha, s.json, s.cfg, old(s.disk.fs), picked.value).Some?
    ensures picked.Some? && s.timeline.up ==> Trail(old(s.timeline.events), s.timeline.events, picked.value, passed)
  {
    hide *;
    picked, passed := None, Err(RootUnavailable);
    EntriesAre(s.cfg, s.disk.fs);
    var listed := s.disk.ReadDir(s.cfg.backupRoot);
    if listed.None? {
      if !Passable(s.disk.fs, s.cfg.backupRoot) {
        NothingIn(s.sha, s.json, s.cfg, s.disk.fs);
      }
      r := Err(RootUnavailable);
      return;
    }
    var names := listed.value;
    ghost var latest := LastTrusted(s.sha, s.json, s.cfg, s.disk.fs, Entries(s.cfg, s.disk.fs));
    assert names[..|names|] == names;
    for i := |names| downto 0
      invariant s.disk.fs == old(s.disk.fs) && s.timeline.events == old(s.timeline.events)
      invariant s.disk.calm ==> latest == LastTrusted(s.sha, s.json, s.cfg, s.disk.fs, names[..i])
      invariant picked.None?
    {
      OneMore(s.sha, s.json, s.cfg, s.disk.fs, names, i);
      EntryIsSeparate(s.sha, s.json, s.cfg, s.disk.fs, names, i);
      var m := s.VerifyUnlocked(names[i]);
      if m.Some? {
        picked := Some(names[i]);
        var result := s.ReconcileRecoveryPoint(names[i], now);
        r, passed := Reported(result), result;
        return;
      }
    }
    NoEntries(s.sha, s.json, s.cfg, s.disk.fs);
    assert names[..0] == [];
    r := Ok(None);
  }

  lemma NothingIn(sha: Sha, json: Json, cfg: Config, fs: FS)
    requires !Passable(fs, cfg.backupRoot)
    ensures LastTrusted(sha, json, cfg, fs, Entries(cfg, fs)) == None
  {
    NoDirNames(fs, cfg.backupRoot);
    EmptySet(Entries(cfg, fs));
  }

  /** The layout premise of a pass, for every point it could be run on. */
  ghost predicate PointsSeparate(sha: Sha, json: Json, cfg: Config, fs: FS) {
    forall n {:trigger Verified(sha, json, cfg, fs, n)} :: n in DirNames(fs, cfg.backupRoot) ==>
      match Verified(sha, json, cfg, fs, n)
      case None => true
      case Some(m) => Separate(cfg, n, m)
  }

  lemma EntryIsSeparate(sha: Sha, json: Json, cfg: Config, fs: FS, names: seq<string>, i: nat)
    requires PointsSeparate(sha, json, cfg, fs) && names == SortedNames(DirNames(fs, cfg.backupRoot)) && i < |names|
    ensures forall m :: Verified(sha, json, cfg, fs, names[i]) == Some(m) ==> Separate(cfg, names[i], m)
  {
    hide Verified, Separate;
    assert names[i] in ToSet(names);
  }

  lemma EntriesAre(cfg: Config, fs: FS)
    ensures Entries(cfg, fs) == SortedNames(DirNames(fs, cfg.backupRoot))
  {
  }

  lemma NoEntries(sha: Sha, json: Json, cfg: Config, fs: FS)
    ensures LastTrusted(sha, json, cfg, fs, []) == None
  {
  }

  // ---------------------------------------------------------------- the listing after a pass

  /** What verification of this entry reads lies outside the trees. */
  predicate PointOutside(json: Json, cfg: Config, fs: FS, n: string, roots: set<string>) {
    && Outside(ManifestPath(cfg, n), roots)
    && match StoredManifest(json, cfg, fs, n)
       case None => true
       case Some(m) => Outside(PostgresPath(cfg, n, m), roots) && Outside(SQLitePath(cfg, n, m), roots)
  }

  lemma OtherPointSame(sha: Sha, json: Json, cfg: Config, before: FS, after: FS, n: string, roots: set<string>)
    requires Kept(before, after, roots) && PointOutside(json, cfg, before, n, roots)
    ensures Verified(sha, json, cfg, after, n) == Verified(sha, json, cfg, before, n)
  {
    hide Kept, Outside, ManifestPath, PostgresPath, SQLitePath, Gated, Verified, IsFile;
    var stored := StoredManifest(json, cfg, before, n);
    ReadKept(before, after, roots, ManifestPath(cfg, n));
    StoredFrame(json, before, after, ManifestPath(cfg, n));
    if stored.Some? {
      ReadKept(before, after, roots, PostgresPath(cfg, n, stored.value));
      ReadKept(before, after, roots, SQLitePath(cfg, n, stored.value));
    }
    VerifiedFrame(sha, json, cfg, before, after, n, stored);
  }

  /** A point with a manifest is a directory of the backup root. */
  ghost predicate PointsAreEntries(cfg: Config, fs: FS) {
    forall n {:trigger ManifestPath(cfg, n)} ::
      '/' !in n && IsFile(fs, ManifestPath(cfg, n)) ==> n in DirNames(fs, cfg.backupRoot)
  }

  ghost predicate OthersOutside(json: Json, cfg: Config, fs: FS, id: string, roots: set<string>) {
    forall n {:trigger PointOutside(json, cfg, fs, n, roots)} :: n != id && '/' !in n ==>
        PointOutside(json, cfg, fs, n, roots)
  }

  lemma PointDirStays(cfg: Config, before: FS, after: FS, id: string, m: Manifest)
    requires Separate(cfg, id, m) && Kept(before, after, Touched(cfg, id, m)) && id in DirNames(before, cfg.backupRoot)
    ensures id in DirNames(after, cfg.backupRoot)
  {
    DirNamesAre(before, cfg.backupRoot, id);
    DirNamesAre(after, cfg.backupRoot, id);
    PointDirIsOutside(cfg, id, m);
    assert KeptAt(before, after, PointDir(cfg, id));
  }

  lemma PointDirIsOutside(cfg: Config, id: string, m: Manifest)
    requires Separate(cfg, id, m)
    ensures Outside(PointDir(cfg, id), Touched(cfg, id, m))
  {
    hide MirrorRoots, OffsiteRoots, Artifacts, Blank;
    var manifest := ManifestPath(cfg, id);
    JoinIsBelow(PointDir(cfg, id), "manifest.json");
    forall r | r in Touched(cfg, id, m)
      ensures !Under(r, PointDir(cfg, id))
    {
      if r != manifest {
        assert Disjoint(r, manifest);
        if Under(r, PointDir(cfg, id)) {
          UnderTransitive(r, PointDir(cfg, id), manifest);
        }
      }
    }
  }

  /** No other entry comes to verify after the picked one. */
  lemma OtherIsEarlier(sha: Sha, json: Json, cfg: Config, before: FS, after: FS, id: string, n: string,
                       roots: set<string>)
    requires LastTrusted(sha, json, cfg, before, Entries(cfg, before)) == Some(id)
    requires Kept(before, after, roots) && n in Entries(cfg, after) && n != id
    requires Verified(sha, json, cfg, after, n).Some?
    requires PointsAreEntries(cfg, before) && OthersOutside(json, cfg, before, id, roots)
    ensures Less(n, id)
  {
    hide Verified, Kept, PointOutside, Less, ManifestPath, IsFile, LastTrusted, DirNames;
    var names := Entries(cfg, before);
    assert n in ToSet(Entries(cfg, after));
    DirNamesAre(after, cfg.backupRoot, n);
    OtherPointSame(sha, json, cfg, before, after, n, roots);
    NoManifestNoPoint(sha, json, cfg, before, n);
    assert n in names by { assert n in ToSet(names); }
    PickedIsGreatest(sha, json, cfg, before, names, n);
  }

  /** After a pass over the picked point, it is still the one the listing ends with. */
  lemma PickedStaysLast(sha: Sha, json: Json, cfg: Config, before: FS, after: FS, id: string, m: Manifest)
    requires LastTrusted(sha, json, cfg, before, Entries(cfg, before)) == Some(id)
    requires Separate(cfg, id, m) && Kept(before, after, Touched(cfg, id, m))
    requires Verified(sha, json, cfg, after, id).Some?
    requires PointsAreEntries(cfg, before) && OthersOutside(json, cfg, before, id, Touched(cfg, id, m))
    ensures LastTrusted(sha, json, cfg, after, Entries(cfg, after)) == Some(id)
  {
    hide Verified, Separate, Kept, Touched, PointOutside, Less, ManifestPath, IsFile, LastTrusted, DirNames,
        PointsAreEntries, OthersOutside;
    var names, names' := Entries(cfg, before), Entries(cfg, after);
    PickedVerifies(sha, json, cfg, before, names);
    assert id in ToSet(names);
    PointDirStays(cfg, before, after, id, m);
    assert id in names' by { assert id in ToSet(names'); }
    forall n | n in names' && Verified(sha, json, cfg, after, n).Some?
      ensures n == id || Less(n, id)
    {
      if n != id {
        OtherIsEarlier(sha, json, cfg, before, after, id, n, Touched(cfg, id, m));
      }
    }
    GreatestIsPicked(sha, json, cfg, after, names', id);
  }
}
