/** The offsite copy of a mirror and its retention (backend/backup/offsite.go:37-324, filesystem branch). */
module Offsite {
  import opened Common
  import opened Text
  import opened FileSystem
  import opened Storage
  import opened RecoveryPoint
  import opened Order
  import TreeDigest

  datatype CopyResult = CopyResult(provider: string, status: string, path: string, sum: string,
                                   retentionUntil: int, verified: bool)

  function MetadataPath(dir: string): string {
    Join(dir, TreeDigest.METADATA)
  }

  function MetadataAt(json: Json, fs: FS, dir: string): Option<OffsiteMetadata> {
    match Read(fs, MetadataPath(dir))
    case None => None
    case Some(text) => json.decodeMetadata(text)
  }

  /** The copy has a retention time, and it has passed. */
  predicate IsExpired(json: Json, fs: FS, dir: string, now: int) {
    var m := MetadataAt(json, fs, dir);
    m.Some? && m.value.retentionUntil != 0 && m.value.retentionUntil < now
  }

  /** The copies the retention pass deletes: expired ones, except the one whose name comes last. */
  ghost predicate Doomed(json: Json, fs: FS, root: string, now: int, name: string) {
    name in DirNames(fs, root) && name != Latest(fs, root) && IsExpired(json, fs, Join(root, name), now)
  }

  ghost function Latest(fs: FS, root: string): string {
    var names := SortedNames(DirNames(fs, root));
    if names == [] then "" else names[|names| - 1]
  }

  ghost function DoomedTrees(json: Json, fs: FS, root: string, now: int): set<string> {
    set n | n in DirNames(fs, root) && Doomed(json, fs, root, now, n) :: Join(root, n)
  }

  lemma LatestIsGreatest(fs: FS, root: string, name: string)
    requires name in DirNames(fs, root)
    ensures Latest(fs, root) in DirNames(fs, root) && (name == Latest(fs, root) || Less(name, Latest(fs, root)))
  {
    var names := SortedNames(DirNames(fs, root));
    assert name in ToSet(names);
    var i :| 0 <= i < |names| && names[i] == name;
    assert names[|names| - 1] in ToSet(names);
  }

  /** Different entries of a directory have no path in common. */
  lemma SiblingsDisjoint(root: string, a: string, b: string)
    requires '/' !in a && '/' !in b && a != b
    ensures Disjoint(Join(root, a), Join(root, b))
  {
    NotUnderSibling(root, a, b);
    NotUnderSibling(root, b, a);
  }

  lemma NotUnderSibling(root: string, a: string, b: string)
    requires '/' !in b && a != b
    ensures !Under(Join(root, a), Join(root, b))
  {
    RelOfJoin(root, a);
    RelOfJoin(root, b);
    var p, q := Join(root, a), Join(root, b);
    if |a| < |b| {
      assert q[|p|] == b[|a|];
    }
  }

  /** The trees of the doomed copies among these names. */
  ghost function TreesOf(json: Json, fs: FS, root: string, now: int, names: seq<string>): set<string> {
    set n | n in names && Doomed(json, fs, root, now, n) :: Join(root, n)
  }

  lemma EntryApart(json: Json, fs: FS, root: string, now: int, names: seq<string>, i: nat)
    requires names == SortedNames(DirNames(fs, root)) && i < |names|
    ensures Apart(Join(root, names[i]), TreesOf(json, fs, root, now, names[..i]))
  {
    forall r | r in TreesOf(json, fs, root, now, names[..i])
      ensures Disjoint(r, Join(root, names[i]))
    {
      var n :| n in names[..i] && Doomed(json, fs, root, now, n) && r == Join(root, n);
      NamesDiffer(names, i, n);
      assert names[i] in ToSet(names);
      DirNamesAre(fs, root, n);
      DirNamesAre(fs, root, names[i]);
      SiblingsDisjoint(root, n, names[i]);
    }
  }

  lemma NamesDiffer(names: seq<string>, i: nat, n: string)
    requires Ascending(names) && i < |names| && n in names[..i]
    ensures n != names[i]
  {
    LessIrreflexive(n);
  }

  /** An entry no earlier removal touched still has its metadata. */
  lemma MetadataKept(json: Json, before: FS, fs: FS, roots: set<string>, dir: string, now: int)
    requires Kept(before, fs, roots) && Apart(dir, roots)
    ensures IsExpired(json, fs, dir, now) == IsExpired(json, before, dir, now)
  {
    var p := MetadataPath(dir);
    JoinIsBelow(dir, TreeDigest.METADATA);
    ApartMeansOutside(dir, roots, p);
    FileKept(before, fs, roots, p);
    assert Read(fs, p) == Read(before, p);
  }

  lemma TreesGrow(json: Json, fs: FS, root: string, now: int, names: seq<string>, i: nat)
    requires i < |names|
    ensures TreesOf(json, fs, root, now, names[..i + 1])
         == TreesOf(json, fs, root, now, names[..i])
            + (if Doomed(json, fs, root, now, names[i]) then {Join(root, names[i])} else {})
  {
    assert names[..i + 1] == names[..i] + [names[i]];
  }

  lemma TreesOfAll(json: Json, fs: FS, root: string, now: int, names: seq<string>)
    requires names == SortedNames(DirNames(fs, root))
    ensures TreesOf(json, fs, root, now, names) == DoomedTrees(json, fs, root, now)
  {
    assert forall n :: n in names <==> n in ToSet(names);
  }

  /** What is left once these trees are removed, and nothing else happens. */
  ghost predicate Pruned(before: FS, fs: FS, trees: set<string>) {
    forall p {:trigger SameAt(before, fs, p)} :: if Outside(p, trees) then SameAt(before, fs, p) else p !in fs
  }

  lemma NothingPruned(fs: FS)
    ensures Pruned(fs, fs, {})
  {
    forall p
      ensures Outside(p, {}) && SameAt(fs, fs, p)
    {
    }
  }

  lemma PruneStep(before: FS, fs: FS, trees: set<string>, tree: string)
    requires Pruned(before, fs, trees)
    ensures Pruned(before, Removed(fs, tree), trees + {tree})
  {
    var after := Removed(fs, tree);
    forall p
      ensures if Outside(p, trees + {tree}) then SameAt(before, after, p) else p !in after
    {
      assert SameAt(before, fs, p) || p !in fs;
      if Under(tree, p) {
        assert tree in trees + {tree};
        assert p !in after;
      } else {
        assert Outside(p, trees + {tree}) <==> Outside(p, trees);
        assert SameAt(fs, after, p);
      }
    }
  }

  /** The trees removed once the entries before `i` are done, and what is left. */
  ghost predicate Retained(before: FS, fs: FS, calm: bool, trees: set<string>) {
    Kept(before, fs, trees) && (calm ==> Pruned(before, fs, trees))
  }

  lemma ExpiredIsClear(json: Json, fs: FS, dir: string, now: int)
    requires IsExpired(json, fs, dir, now)
    ensures NoFileAbove(fs, dir)
  {
    JoinIsBelow(dir, TreeDigest.METADATA);
    AboveIsDir(fs, MetadataPath(dir), dir);
    PresentIsClear(fs, dir);
  }

  method RemoveExpired(disk: Disk, json: Json, dir: string, now: int, ghost before: FS, ghost trees: set<string>)
    requires Retained(before, disk.fs, disk.calm, trees)
    requires Apart(dir, trees) && !Blank(dir)
    modifies disk`fs
    ensures var gone := if IsExpired(json, before, dir, now) then trees + {dir} else trees;
            Retained(before, disk.fs, disk.calm, gone)
  {
    MetadataKept(json, before, disk.fs, trees, dir, now);
    var unreadable := disk.Fault();
    if !unreadable && IsExpired(json, disk.fs, dir, now) {
      KeptMore(before, disk.fs, trees, trees + {dir});
      if disk.calm {
        PruneStep(before, disk.fs, trees, dir);
      }
      assert Under(dir, dir);
      ExpiredIsClear(json, disk.fs, dir, now);
      var ok := disk.RemoveRecoveryTree(dir, before, trees + {dir});
    } else {
      KeptMore(before, disk.fs, trees, if IsExpired(json, before, dir, now) then trees + {dir} else trees);
    }
  }

  lemma GrowStep(json: Json, fs: FS, root: string, now: int, names: seq<string>, i: nat)
    requires names == SortedNames(DirNames(fs, root)) && i < |names|
    ensures var trees, more := TreesOf(json, fs, root, now, names[..i]), TreesOf(json, fs, root, now, names[..i + 1]);
            more == if names[i] != names[|names| - 1] && IsExpired(json, fs, Join(root, names[i]), now)
                    then trees + {Join(root, names[i])} else trees
  {
    TreesGrow(json, fs, root, now, names, i);
    assert names[i] in DirNames(fs, root) by { assert names[i] in ToSet(names); }
  }

  /** One entry of the retention loop. */
  method RetainEntry(disk: Disk, json: Json, root: string, now: int, names: seq<string>, i: nat, ghost before: FS)
    requires names == SortedNames(DirNames(before, root)) && i < |names|
    requires Retained(before, disk.fs, disk.calm, TreesOf(json, before, root, now, names[..i]))
    modifies disk`fs
    ensures Retained(before, disk.fs, disk.calm, TreesOf(json, before, root, now, names[..i + 1]))
  {
    GrowStep(json, before, root, now, names, i);
    if names[i] != names[|names| - 1] {
      EntryApart(json, before, root, now, names, i);
      SlashIsNotBlank(root, names[i]);
      RemoveExpired(disk, json, Join(root, names[i]), now, before, TreesOf(json, before, root, now, names[..i]));
    }
  }

  /** Every path of the tree is as it was. */
  ghost predicate TreeStays(before: FS, after: FS, tree: string) {
    forall p {:trigger SameAt(before, after, p)} :: p in before && Under(tree, p) ==> SameAt(before, after, p)
  }

  /**
    What a retention pass does to one copy, by the time its metadata name: without readable metadata, without a
    retention time, still within it, or with the greatest name, it stays as it is whatever fails; without failures
    nothing is left of it past its time where a greater name stands beside it.
   */
  ghost predicate CopyByTime(json: Json, root: string, before: FS, after: FS, calm: bool, now: int, n: string) {
    var tree, names := Join(root, n), DirNames(before, root);
    match MetadataAt(json, before, tree)
    case None => TreeStays(before, after, tree)
    case Some(m) =>
      && (m.retentionUntil == 0 || now <= m.retentionUntil ==> TreeStays(before, after, tree))
      && ((forall k :: k in names ==> k == n || Less(k, n)) ==> TreeStays(before, after, tree))
      && (calm && m.retentionUntil != 0 && m.retentionUntil < now ==>
            (exists k :: k in names && Less(n, k)) ==> !Exists(after, tree))
  }

  ghost predicate RetentionByTime(json: Json, root: string, before: FS, after: FS, calm: bool, now: int) {
    forall n {:trigger CopyByTime(json, root, before, after, calm, now, n)} ::
      n in DirNames(before, root) ==> CopyByTime(json, root, before, after, calm, now, n)
  }

  lemma ApartStays(before: FS, after: FS, trees: set<string>, tree: string)
    requires Kept(before, after, trees) && Apart(tree, trees)
    ensures TreeStays(before, after, tree)
  {
    forall p | p in before && Under(tree, p)
      ensures SameAt(before, after, p)
    {
      ApartMeansOutside(tree, trees, p);
      assert KeptAt(before, after, p);
    }
  }

  lemma DoomedIsGone(json: Json, before: FS, after: FS, root: string, now: int, n: string)
    requires Pruned(before, after, DoomedTrees(json, before, root, now))
    requires n in DirNames(before, root) && IsExpired(json, before, Join(root, n), now) && n != Latest(before, root)
    ensures !Exists(after, Join(root, n))
  {
    var tree := Join(root, n);
    assert Doomed(json, before, root, now, n);
    assert tree in DoomedTrees(json, before, root, now);
    forall p | Under(tree, p)
      ensures p !in after
    {
      assert SameAt(before, after, p) || p !in after;
    }
  }

  lemma NotTheLatest(fs: FS, root: string, n: string, k: string)
    requires n in DirNames(fs, root) && k in DirNames(fs, root) && Less(n, k)
    ensures n != Latest(fs, root)
  {
    LatestIsGreatest(fs, root, k);
    LessIrreflexive(n);
    if n == Latest(fs, root) {
      LessTransitive(n, k, n);
    }
  }

  lemma GreatestIsLatest(fs: FS, root: string, n: string)
    requires n in DirNames(fs, root) && forall k :: k in DirNames(fs, root) ==> k == n || Less(k, n)
    ensures n == Latest(fs, root)
  {
    LatestIsGreatest(fs, root, n);
    var l := Latest(fs, root);
    if l != n {
      LessTransitive(n, l, n);
      LessIrreflexive(n);
    }
  }

  /** One copy after the pass. */
  lemma IsByTime(json: Json, root: string, before: FS, after: FS, calm: bool, now: int, n: string)
    requires Kept(before, after, DoomedTrees(json, before, root, now)) && n in DirNames(before, root)
    requires calm ==> Pruned(before, after, DoomedTrees(json, before, root, now))
    ensures CopyByTime(json, root, before, after, calm, now, n)
  {
    hide Kept, Pruned, DoomedTrees, TreeStays, DirNames, Less, Latest, Exists, MetadataAt, Apart;
    var trees := DoomedTrees(json, before, root, now);
    var greatest := forall k :: k in DirNames(before, root) ==> k == n || Less(k, n);
    if greatest {
      GreatestIsLatest(before, root, n);
    }
    if greatest || !IsExpired(json, before, Join(root, n), now) {
      SurvivorsApart(json, before, root, now, n);
      ApartStays(before, after, trees, Join(root, n));
    }
    if calm && IsExpired(json, before, Join(root, n), now) && (exists k :: k in DirNames(before, root) && Less(n, k)) {
      var k :| k in DirNames(before, root) && Less(n, k);
      NotTheLatest(before, root, n, k);
      DoomedIsGone(json, before, after, root, now, n);
    }
  }

  lemma PassIsByTime(json: Json, root: string, before: FS, after: FS, calm: bool, now: int)
    requires Kept(before, after, DoomedTrees(json, before, root, now))
    requires calm ==> Pruned(before, after, DoomedTrees(json, before, root, now))
    ensures RetentionByTime(json, root, before, after, calm, now)
  {
    hide Kept, Pruned, DoomedTrees, DirNames, CopyByTime;
    forall n | n in DirNames(before, root)
      ensures CopyByTime(json, root, before, after, calm, now, n)
    {
      IsByTime(json, root, before, after, calm, now, n);
    }
  }

  /** Deletes expired copies only, and never the one whose name comes last. */
  method EnforceFilesystemRetention(disk: Disk, json: Json, root: string, now: int)
    modifies disk`fs
    ensures Kept(old(disk.fs), disk.fs, DoomedTrees(json, old(disk.fs), root, now))
    ensures disk.calm && !Blank(root) ==> Pruned(old(disk.fs), disk.fs, DoomedTrees(json, old(disk.fs), root, now))
    ensures RetentionByTime(json, root, old(disk.fs), disk.fs, disk.calm && !Blank(root), now)
  {
    RetainDoomed(disk, json, root, now);
    PassIsByTime(json, root, old(disk.fs), disk.fs, disk.calm && !Blank(root), now);
    hide *;
  }

  /** The pass, by the copies it dooms. */
  method RetainDoomed(disk: Disk, json: Json, root: string, now: int)
    modifies disk`fs
    ensures Kept(old(disk.fs), disk.fs, DoomedTrees(json, old(disk.fs), root, now))
    ensures disk.calm && !Blank(root) ==> Pruned(old(disk.fs), disk.fs, DoomedTrees(json, old(disk.fs), root, now))
  {
    hide *;
    ghost var before := disk.fs;
    KeptNothing(before, DoomedTrees(json, before, root, now));
    NothingPruned(before);
    if Blank(root) {
      return;
    }
    var listed := disk.ReadDir(root);
    if listed.None? {
      if !Passable(before, root) {
        NoDirNames(before, root);
        FewEntries(json, before, root, now, SortedNames(DirNames(before, root)));
      }
      return;
    }
    var names := listed.value;
    if |names| <= 1 {
      FewEntries(json, before, root, now, names);
      return;
    }
    RetainAll(disk, json, root, now, names);
    RetainedParts(before, disk.fs, disk.calm, DoomedTrees(json, before, root, now));
  }

  lemma RetainedParts(before: FS, fs: FS, calm: bool, trees: set<string>)
    requires Retained(before, fs, calm, trees)
    ensures Kept(before, fs, trees) && (calm ==> Pruned(before, fs, trees))
  {
  }

  lemma FewEntries(json: Json, fs: FS, root: string, now: int, names: seq<string>)
    requires names == SortedNames(DirNames(fs, root)) && (|names| <= 1 || DirNames(fs, root) == {})
    ensures DoomedTrees(json, fs, root, now) == {}
  {
    hide IsExpired, DirNames;
    assert forall n :: n in DirNames(fs, root) ==> n in names by {
      assert forall n :: n in DirNames(fs, root) ==> n in ToSet(names);
    }
  }

  method RetainAll(disk: Disk, json: Json, root: string, now: int, names: seq<string>)
    requires names == SortedNames(DirNames(disk.fs, root))
    modifies disk`fs
    ensures Retained(old(disk.fs), disk.fs, disk.calm, DoomedTrees(json, old(disk.fs), root, now))
  {
    hide Retained, Doomed, DirNames;
    ghost var before := disk.fs;
    TreesOfAll(json, before, root, now, names);
    assert names[..0] == [];
    assert TreesOf(json, before, root, now, names[..0]) == {};
    NothingRetained(before, disk.calm);
    for i := 0 to |names|
      invariant Retained(before, disk.fs, disk.calm, TreesOf(json, before, root, now, names[..i]))
    {
      RetainEntry(disk, json, root, now, names, i, before);
    }
    assert names[..|names|] == names;
  }

  lemma NothingRetained(fs: FS, calm: bool)
    ensures Retained(fs, fs, calm, {})
  {
    KeptNothing(fs, {});
    NothingPruned(fs);
  }

  /** A copy that is not expired, or whose name comes last, has no path in common with what the pass deletes. */
  lemma SurvivorsApart(json: Json, fs: FS, root: string, now: int, name: string)
    requires name in DirNames(fs, root)
    requires name == Latest(fs, root) || !IsExpired(json, fs, Join(root, name), now)
    ensures Apart(Join(root, name), DoomedTrees(json, fs, root, now))
  {
    forall r | r in DoomedTrees(json, fs, root, now)
      ensures Disjoint(r, Join(root, name))
    {
      var n :| n in DirNames(fs, root) && Doomed(json, fs, root, now, n) && r == Join(root, n);
      DirNamesAre(fs, root, n);
      DirNamesAre(fs, root, name);
      SiblingsDisjoint(root, n, name);
    }
  }

  lemma SlashIsNotBlank(root: string, name: string)
    ensures !Blank(Join(root, name))
  {
    NotBlank(Join(root, name), '/');
  }

  // ---------------------------------------------------------------- the copy

  /** Writing the metadata file of a tree leaves its digest alone. */
  lemma MetadataKeepsDigest(sha: Sha, fs: FS, after: FS, dir: string, text: string, mode: nat)
    requires IsDir(fs, dir) && after == fs[MetadataPath(dir) := File(text, mode)]
    ensures DigestAt(sha, after, dir) == DigestAt(sha, fs, dir)
  {
    var p := MetadataPath(dir);
    RelOfJoin(dir, TreeDigest.METADATA);
    WrittenFiles(fs, after, p, text, mode, dir);
    TreeDigest.MetadataIsInvisible(sha, Files(fs, dir), text);
  }

  lemma ModesKeepDigest(sha: Sha, a: FS, b: FS, dir: string)
    requires OnlyModesDiffer(a, b, dir)
    ensures DigestAt(sha, b, dir) == DigestAt(sha, a, dir)
  {
    ModesDoNotMatter(a, b, dir, dir);
  }

  lemma ModesKeepMetadata(json: Json, a: FS, b: FS, dir: string, m: OffsiteMetadata)
    requires OnlyModesDiffer(a, b, dir) && MetadataText(json, a, dir, m)
    ensures MetadataText(json, b, dir, m)
  {
    var p := MetadataPath(dir);
    assert SameContent(a, b, p);
  }

  /** Copies the mirror and adds the metadata, which records the digest of what was copied. */
  method PackCopy(disk: Disk, sha: Sha, json: Json, id: string, mirror: string, copy: string, until: int)
      returns (packed: Option<string>)
    requires IsDir(disk.fs, mirror) && !Exists(disk.fs, copy) && Disjoint(mirror, copy)
    modifies disk`fs
    ensures Kept(old(disk.fs), disk.fs, {copy})
    ensures packed.Some? ==> DigestAt(sha, old(disk.fs), mirror) == packed == DigestAt(sha, disk.fs, copy)
    ensures packed.Some? ==> MetadataText(json, disk.fs, copy, OffsiteMetadata(id, mirror, until, packed.value))
    ensures packed.Some? ==> NoFileAbove(old(disk.fs), copy) && !IsDir(old(disk.fs), MetadataPath(mirror))
    ensures disk.calm && NoFileAbove(old(disk.fs), copy) && !IsDir(old(disk.fs), MetadataPath(mirror)) ==> packed.Some?
    ensures disk.calm ==> DirsNear(old(disk.fs), disk.fs, copy)
  {
    hide *;
    ghost var before := disk.fs;
    InItself(copy);
    KeptNothing(before, {copy});
    var ok := disk.CopyDirectory(mirror, copy, before, {copy});
    if !ok {
      return None;
    }
    ghost var copied := disk.fs;
    CopyHasDigest(sha, before, copied, mirror, copy);
    packed := disk.DirectorySHA256(sha, copy);
    if packed.None? {
      return;
    }
    ok := WriteMetadata(disk, sha, json, OffsiteMetadata(id, mirror, until, packed.value), copy, before);
    if disk.calm {
      DirsNearTransitive(before, copied, disk.fs, copy);
    }
    if !ok {
      return None;
    }
  }

  lemma CopyHasDigest(sha: Sha, before: FS, copied: FS, mirror: string, copy: string)
    requires IsDir(before, mirror) && IsDir(copied, copy) && Files(copied, copy) == Files(before, mirror)
    requires forall n :: IsDir(copied, Join(copy, n)) <==> IsDir(before, Join(mirror, n))
    ensures DigestAt(sha, before, mirror) == DigestAt(sha, copied, copy) && !IsFile(copied, copy)
    ensures IsDir(copied, MetadataPath(copy)) <==> IsDir(before, MetadataPath(mirror))
  {
    hide Files, Join;
  }

  method WriteMetadata(disk: Disk, sha: Sha, json: Json, m: OffsiteMetadata, copy: string, ghost base: FS)
      returns (ok: bool)
    requires Kept(base, disk.fs, {copy}) && IsDir(disk.fs, copy)
    modifies disk`fs
    ensures Kept(base, disk.fs, {copy})
    ensures ok ==>
              DigestAt(sha, disk.fs, copy) == DigestAt(sha, old(disk.fs), copy) && MetadataText(json, disk.fs, copy, m)
    ensures ok ==> !IsDir(old(disk.fs), MetadataPath(copy))
    ensures disk.calm && !IsDir(old(disk.fs), MetadataPath(copy)) ==> ok
    ensures DirsNear(old(disk.fs), disk.fs, copy)
  {
    hide Kept, Files, TreeDigest.Digest;
    ghost var copied := disk.fs;
    JoinIsBelow(copy, TreeDigest.METADATA);
    assert !Outside(MetadataPath(copy), {copy}) by { assert Under(copy, MetadataPath(copy)); }
    EntryIsRooted(copied, copy, TreeDigest.METADATA);
    ok := disk.WriteFile(MetadataPath(copy), json.encodeMetadata(m), SEALED_FILE, base, {copy});
    if ok {
      MetadataKeepsDigest(sha, copied, disk.fs, copy, json.encodeMetadata(m), disk.fs[MetadataPath(copy)].mode);
    }
  }

  /** Packs the copy, seals the tree and reads it back; whatever fails, the copy is removed again. */
  method FillCopy(disk: Disk, sha: Sha, json: Json, id: string, mirror: string, copy: string, until: int)
      returns (digest: Option<string>)
    requires IsDir(disk.fs, mirror) && !Exists(disk.fs, copy) && Disjoint(mirror, copy)
    modifies disk`fs
    ensures Kept(old(disk.fs), disk.fs, {copy})
    ensures digest.Some? ==> DigestAt(sha, old(disk.fs), mirror) == digest == DigestAt(sha, disk.fs, copy)
    ensures digest.Some? ==> MetadataText(json, disk.fs, copy, OffsiteMetadata(id, mirror, until, digest.value))
    ensures digest.Some? ==> SealedTree(disk.fs, copy)
    ensures digest.Some? ==> NoFileAbove(old(disk.fs), copy) && !IsDir(old(disk.fs), MetadataPath(mirror))
    ensures disk.calm && NoFileAbove(old(disk.fs), copy) && !IsDir(old(disk.fs), MetadataPath(mirror)) ==> digest.Some?
    ensures disk.calm ==> DirsNear(old(disk.fs), disk.fs, copy)
  {
    hide *;
    ghost var before := disk.fs;
    InItself(copy);
    KeptNothing(before, {copy});
    var packed := PackCopy(disk, sha, json, id, mirror, copy, until);
    ghost var written := disk.fs;
    if packed.None? {
      Discard(disk, before, copy);
      return None;
    }
    var ok := disk.MakeReadOnlyTree(copy, before, {copy});
    if !ok {
      Discard(disk, before, copy);
      return None;
    }
    ModesKeepDigest(sha, written, disk.fs, copy);
    ModesKeepMetadata(json, written, disk.fs, copy, OffsiteMetadata(id, mirror, until, packed.value));
    ModesKeepDirs(before, written, disk.fs, copy);
    DigestMeansDirectory(sha, disk.fs, copy);
    digest := disk.DirectorySHA256(sha, copy);
    if digest.None? || digest != packed {
      ok := disk.RemoveRecoveryTree(copy, before, {copy});
      return None;
    }
  }

  lemma ModesKeepDirs(before: FS, a: FS, b: FS, root: string)
    requires OnlyModesDiffer(a, b, root)
    ensures DirsNear(before, a, root) ==> DirsNear(before, b, root)
  {
    forall q
      ensures IsDir(a, q) == IsDir(b, q)
    {
      if q in a {
        assert SameContent(a, b, q);
      }
    }
  }

  /** Removes what there is of a failed copy. */
  method Discard(disk: Disk, ghost before: FS, copy: string)
    requires Kept(before, disk.fs, {copy})
    modifies disk`fs
    ensures Kept(before, disk.fs, {copy})
    ensures disk.calm && DirsNear(before, old(disk.fs), copy) ==> DirsNear(before, disk.fs, copy)
  {
    hide *;
    ghost var mid := disk.fs;
    InItself(copy);
    var ok := disk.RemoveAll(copy, before, {copy});
    if disk.calm && DirsNear(before, mid, copy) {
      FewerDirs(mid, disk.fs, copy);
      DirsNearTransitive(before, mid, disk.fs, copy);
    }
  }

  predicate MetadataText(json: Json, fs: FS, dir: string, m: OffsiteMetadata) {
    Read(fs, MetadataPath(dir)) == Some(json.encodeMetadata(m))
  }

  function Failed(path: string, until: int): CopyResult {
    CopyResult("filesystem", "failed", path, "", until, false)
  }

  /** The trees an offsite copy may change: the expired copies and its own place. */
  ghost function CopyRoots(json: Json, cfg: Config, fs: FS, id: string, now: int): set<string> {
    if cfg.offsiteRoot == "" then {} else DoomedTrees(json, fs, cfg.offsiteRoot, now) + {OffsiteDir(cfg, id)}
  }

  lemma DoomedIsInRoot(json: Json, fs: FS, root: string, now: int, tree: string)
    requires tree in DoomedTrees(json, fs, root, now)
    ensures Below(root, tree)
  {
    var n :| n in DirNames(fs, root) && Doomed(json, fs, root, now, n) && tree == Join(root, n);
    JoinIsBelow(root, n);
  }

  lemma DisjointFromInner(outer: string, inner: string, other: string)
    requires Disjoint(outer, other) && Under(outer, inner)
    ensures Disjoint(inner, other)
  {
    if Under(inner, other) {
      UnderTransitive(outer, inner, other);
    } else if Under(other, inner) {
      SharedPathMeansNested(outer, other, inner);
    }
  }

  lemma ApartFromCopies(json: Json, cfg: Config, fs: FS, id: string, now: int, other: string)
    requires Disjoint(cfg.offsiteRoot, other)
    ensures Apart(other, CopyRoots(json, cfg, fs, id, now))
  {
    forall r | r in CopyRoots(json, cfg, fs, id, now)
      ensures Disjoint(r, other)
    {
      if r == OffsiteDir(cfg, id) {
        JoinIsBelow(cfg.offsiteRoot, id);
      } else {
        DoomedIsInRoot(json, fs, cfg.offsiteRoot, now, r);
      }
      DisjointFromInner(cfg.offsiteRoot, r, other);
    }
  }

  lemma PrunedIsFewer(before: FS, fs: FS, trees: set<string>)
    requires Pruned(before, fs, trees)
    ensures Fewer(before, fs)
  {
    forall p | p in fs
      ensures p in before && fs[p] == before[p]
    {
      assert SameAt(before, fs, p) || p !in fs;
    }
  }

  lemma StillAbsent(before: FS, fs: FS, trees: set<string>, root: string)
    requires Pruned(before, fs, trees) && !Exists(before, root)
    ensures !Exists(fs, root)
  {
    assert forall p :: SameAt(before, fs, p) || p !in fs;
  }

  /** What a copy reported as verified is: sealed, described by its metadata, and equal to the mirror by digest. */
  ghost predicate GoodCopy(sha: Sha, json: Json, before: FS, fs: FS, id: string, mirror: string, r: CopyResult) {
    && DigestAt(sha, before, mirror) == Some(r.sum) == DigestAt(sha, fs, r.path)
    && SealedTree(fs, r.path)
    && MetadataText(json, fs, r.path, OffsiteMetadata(id, mirror, r.retentionUntil, r.sum))
  }

  /** Nothing of the wrong kind stands in the way of a copy: above it, or where its metadata go. */
  predicate WayIsClear(fs: FS, mirror: string, copy: string) {
    IsDir(fs, mirror) && !IsDir(fs, MetadataPath(mirror)) && NoFileAbove(fs, copy)
  }

  /** The part after the retention pass. */
  method CopyIfAbsent(disk: Disk, sha: Sha, json: Json, id: string, mirror: string, copy: string, until: int)
      returns (r: CopyResult)
    requires Disjoint(mirror, copy)
    modifies disk`fs
    ensures Kept(old(disk.fs), disk.fs, {copy})
    ensures Exists(old(disk.fs), copy) ==> !r.verified && disk.fs == old(disk.fs)
    ensures r
         == if r.verified then CopyResult("filesystem", "verified", copy, r.sum, until, true) else Failed(copy, until)
    ensures r.verified ==> GoodCopy(sha, json, old(disk.fs), disk.fs, id, mirror, r)
    ensures r.verified ==> !Exists(old(disk.fs), copy) && WayIsClear(old(disk.fs), mirror, copy)
    ensures disk.calm && !Exists(old(disk.fs), copy) && WayIsClear(old(disk.fs), mirror, copy) ==> r.verified
    ensures disk.calm ==> DirsNear(old(disk.fs), disk.fs, copy)
  {
    ghost var before := disk.fs;
    NoNewDirs(before, copy);
    r := Failed(copy, until);
    var unavailable := disk.Fault();
    if unavailable || Exists(disk.fs, copy) || !NoFileAbove(disk.fs, copy) {
      return;
    }
    if !IsDir(disk.fs, mirror) {
      KeptNothing(before, {copy});
      Discard(disk, before, copy);
      return;
    }
    var digest := FillCopy(disk, sha, json, id, mirror, copy, until);
    if digest.Some? {
      r := CopyResult("filesystem", "verified", copy, digest.value, until, true);
    }
  }

  /** A copy made after other trees were pruned is a copy of the mirror as it was before. */
  lemma GoodSinceBefore(sha: Sha, json: Json, before: FS, mid: FS, fs: FS, id: string, mirror: string, r: CopyResult,
                        trees: set<string>)
    requires Kept(before, mid, trees) && Apart(mirror, trees) && mirror in before
    requires GoodCopy(sha, json, mid, fs, id, mirror, r)
    ensures GoodCopy(sha, json, before, fs, id, mirror, r)
  {
    ApartMeansOutside(mirror, trees, mirror);
    assert KeptAt(before, mid, mirror);
    DigestKept(sha, before, mid, trees, mirror);
  }

  /**
    What createOffsiteCopy does.  A copy reported as verified has the digest of its mirror, whatever failed on the way;
    without failures the copy is made exactly when its place is free after the retention pass and nothing of the wrong
    kind is in the way, and expired copies are gone; a place that is still taken is not written to.
   */
  ghost predicate CopyOutcome(sha: Sha, json: Json, cfg: Config, before: FS, after: FS, calm: bool, id: string,
                          mirror: string,
                              now: int, r: CopyResult) {
    var doomed := DoomedTrees(json, before, cfg.offsiteRoot, now);
    && Kept(before, after, CopyRoots(json, cfg, before, id, now))
    && r.retentionUntil == now + cfg.retention
    && (r.verified ==>
          && cfg.offsiteRoot != "" && r.provider == "filesystem" && r.status == "verified"
          && r.path == OffsiteDir(cfg, id)
          && GoodCopy(sha, json, before, after, id, mirror, r))
    && (cfg.offsiteRoot == "" ==> after == before && r == NotConfigured(now + cfg.retention))
    && (cfg.offsiteRoot != "" && OffsiteDir(cfg, id) in before && Outside(OffsiteDir(cfg, id), doomed) ==>
          !r.verified && Kept(before, after, doomed))
    && (r.verified ==> id != "" && mirror != "" && !IsDir(before, MetadataPath(mirror)))
    && (calm ==> (r.verified <==> Copyable(cfg, AfterRetention(json, cfg, before, now), id, mirror)))
    && (calm && Copyable(cfg, before, id, mirror) ==> r.verified)
    && (calm ==> DirsNear(before, after, OffsiteDir(cfg, id)))
    && (calm && r.verified ==> Gone(after, doomed, OffsiteDir(cfg, id)))
  }

  /** What the retention pass leaves when nothing fails. */
  ghost function AfterRetention(json: Json, cfg: Config, fs: FS, now: int): FS {
    Prune(fs, DoomedTrees(json, fs, cfg.offsiteRoot, now))
  }

  ghost function Prune(fs: FS, trees: set<string>): FS {
    PruneIsTree(fs, trees);
    map p | p in fs && Outside(p, trees) :: fs[p]
  }

  lemma PruneIsTree(fs: FS, trees: set<string>)
    ensures IsTree(map p | p in fs && Outside(p, trees) :: fs[p])
  {
    var r := map p | p in fs && Outside(p, trees) :: fs[p];
    forall q | q in r
      ensures Rooted(r, q)
    {
      assert Rooted(fs, q);
      forall k, t | 0 <= k < |q| && q[k] == '/' && t in trees
        ensures !Under(t, q[..k])
      {
        if Under(t, q[..k]) {
          assert Below(q[..k], q);
          UnderTransitive(t, q[..k], q);
        }
      }
    }
  }

  lemma PrunedIsPrune(before: FS, fs: FS, trees: set<string>)
    requires Pruned(before, fs, trees)
    ensures fs == Prune(before, trees)
  {
    var r := Prune(before, trees);
    forall p
      ensures p in r <==> p in fs
      ensures p in r ==> r[p] == fs[p]
    {
      assert SameAt(before, fs, p) || p !in fs;
    }
    assert r.Keys == fs.Keys;
  }

  /** Nothing is left of these trees, apart from the new copy. */
  ghost predicate Gone(fs: FS, trees: set<string>, copy: string) {
    forall p {:trigger IsFile(fs, p)} :: !Outside(p, trees) && !Under(copy, p) ==> !IsFile(fs, p)
  }

  lemma PrunedIsGone(before: FS, mid: FS, after: FS, trees: set<string>, copy: string)
    requires Pruned(before, mid, trees) && Kept(mid, after, {copy})
    ensures Gone(after, trees, copy)
  {
    forall p | !Outside(p, trees) && !Under(copy, p)
      ensures !IsFile(after, p)
    {
      assert Outside(p, {copy});
      assert KeptAt(mid, after, p);
      assert SameAt(before, mid, p) || p !in mid;
    }
  }

  function NotConfigured(until: int): CopyResult {
    CopyResult("filesystem", "not-configured", "", "", until, false)
  }

  predicate Copyable(cfg: Config, fs: FS, id: string, mirror: string) {
    && cfg.offsiteRoot != "" && id != "" && mirror != "" && !Exists(fs, OffsiteDir(cfg, id))
    && WayIsClear(fs, mirror, OffsiteDir(cfg, id))
  }

  lemma NotConfiguredOutcome(sha: Sha, json: Json, cfg: Config, fs: FS, calm: bool, id: string, mirror: string,
                             now: int)
    requires cfg.offsiteRoot == ""
    ensures CopyOutcome(sha, json, cfg, fs, fs, calm, id, mirror, now, NotConfigured(now + cfg.retention))
  {
    NeverCopyable(json, cfg, fs, id, mirror, now);
    NoNewDirs(fs, OffsiteDir(cfg, id));
    KeptNothing(fs, CopyRoots(json, cfg, fs, id, now));
    hide GoodCopy, DoomedTrees, DirsNear, Outside, AfterRetention, Gone, Kept, CopyRoots, Copyable, OffsiteDir, IsDir;
  }

  lemma RefusedOutcome(sha: Sha, json: Json, cfg: Config, fs: FS, calm: bool, id: string, mirror: string, now: int)
    requires cfg.offsiteRoot != "" && (calm ==> id == "" || mirror == "" || mirror !in fs)
    ensures CopyOutcome(sha, json, cfg, fs, fs, calm, id, mirror, now, Failed("", now + cfg.retention))
  {
    if calm {
      NeverCopyable(json, cfg, fs, id, mirror, now);
    }
    NoNewDirs(fs, OffsiteDir(cfg, id));
    KeptNothing(fs, CopyRoots(json, cfg, fs, id, now));
    KeptNothing(fs, DoomedTrees(json, fs, cfg.offsiteRoot, now));
    hide GoodCopy, DoomedTrees, DirsNear, Outside, AfterRetention, Gone, Kept, CopyRoots, Copyable, OffsiteDir, IsDir;
  }

  lemma NeverCopyable(json: Json, cfg: Config, fs: FS, id: string, mirror: string, now: int)
    requires cfg.offsiteRoot == "" || id == "" || mirror == "" || mirror !in fs
    ensures !Copyable(cfg, fs, id, mirror) && !Copyable(cfg, AfterRetention(json, cfg, fs, now), id, mirror)
  {
    hide DoomedTrees, Outside, OffsiteDir, MetadataPath, NoFileAbove, Exists;
  }

  lemma CopiedOutcome(sha: Sha, json: Json, cfg: Config, before: FS, mid: FS, after: FS, calm: bool, id: string,
                      mirror: string,
                      now: int, r: CopyResult)
    requires ValidConfig(cfg) && cfg.offsiteRoot != "" && Disjoint(cfg.offsiteRoot, mirror) && mirror in before
    requires id != "" && mirror != ""
    requires Kept(before, mid, DoomedTrees(json, before, cfg.offsiteRoot, now))
    requires calm && !Blank(cfg.offsiteRoot) ==> Pruned(before, mid, DoomedTrees(json, before, cfg.offsiteRoot, now))
    requires var copy, until := OffsiteDir(cfg, id), now + cfg.retention;
             && Kept(mid, after, {copy})
             && (Exists(mid, copy) ==> !r.verified && after == mid)
             && r == (if r.verified then CopyResult("filesystem", "verified", copy, r.sum, until,
                 true) else Failed(copy, until))
             && (r.verified ==> GoodCopy(sha, json, mid, after, id, mirror, r))
             && (r.verified ==> !Exists(mid, copy) && WayIsClear(mid, mirror, copy))
             && (calm && !Exists(mid, copy) && WayIsClear(mid, mirror, copy) ==> r.verified)
             && (calm ==> DirsNear(mid, after, copy))
    ensures CopyOutcome(sha, json, cfg, before, after, calm, id, mirror, now, r)
  {
    hide GoodCopy, DoomedTrees, Outside, Kept, Disjoint, Exists, Pruned, Blank, Apart, OffsiteDir, Gone, WayIsClear,
        DirsNear, Prune, IsDir, MetadataPath;
    TrimSolid(cfg.offsiteRoot);
    NotBlankIs(cfg.offsiteRoot);
    hide Solid;
    var copy := OffsiteDir(cfg, id);
    var doomed, roots := DoomedTrees(json, before, cfg.offsiteRoot, now), CopyRoots(json, cfg, before, id, now);
    assert roots == doomed + {copy};
    ApartFromCopies(json, cfg, before, id, now, mirror);
    RetentionFacts(before, mid, doomed, roots, mirror, copy, cfg.offsiteRoot, calm);
    KeptMore(mid, after, {copy}, roots);
    KeptTransitive(before, mid, after, roots);
    if r.verified {
      GoodSinceBefore(sha, json, before, mid, after, id, mirror, r, doomed);
      NoMetadataBefore(before, mid, doomed, mirror, copy);
    }
    if calm {
      PrunedIsPrune(before, mid, doomed);
      PrunedIsGone(before, mid, after, doomed, copy);
      PrunedIsFewer(before, mid, doomed);
      FewerDirs(before, mid, copy);
      DirsNearTransitive(before, mid, after, copy);
    }
  }

  lemma NoMetadataBefore(before: FS, mid: FS, trees: set<string>, mirror: string, copy: string)
    requires Kept(before, mid, trees) && Apart(mirror, trees) && WayIsClear(mid, mirror, copy)
    ensures !IsDir(before, MetadataPath(mirror))
  {
    JoinIsBelow(mirror, TreeDigest.METADATA);
    ApartMeansOutside(mirror, trees, MetadataPath(mirror));
    assert KeptAt(before, mid, MetadataPath(mirror));
  }

  lemma NotBlankIs(root: string)
    requires Solid(root) && TrimSpace(root) == root
    ensures !Blank(root)
  {
  }

  lemma CopyOutcomeFacts(sha: Sha, json: Json, cfg: Config, before: FS, after: FS, calm: bool, id: string,
                         mirror: string, now: int, r: CopyResult)
    requires CopyOutcome(sha, json, cfg, before, after, calm, id, mirror, now, r)
    ensures Kept(before, after, CopyRoots(json, cfg, before, id, now))
    ensures r.verified ==> r.provider == "filesystem" && r.status == "verified" && r.path == OffsiteDir(cfg, id)
    ensures r.verified ==> GoodCopy(sha, json, before, after, id, mirror, r)
    ensures r.verified ==> id != "" && mirror != "" && !IsDir(before, MetadataPath(mirror))
    ensures calm && Copyable(cfg, before, id, mirror) ==> r.verified
    ensures calm ==> DirsNear(before, after, OffsiteDir(cfg, id))
  {
    hide Kept, GoodCopy, Copyable, DoomedTrees, CopyRoots, OffsiteDir, Outside, Gone, DirsNear, AfterRetention;
  }

  lemma NotVerifiedStatus(path: string, until: int)
    ensures !Failed(path, until).verified && Failed(path, until).status == "failed"
    ensures !NotConfigured(until).verified && NotConfigured(until).status == "not-configured"
  {
  }

  /** createOffsiteCopy; see CopyOutcome. */
  method CreateOffsiteCopy(disk: Disk, sha: Sha, json: Json, cfg: Config, id: string, mirror: string, now: int)
      returns (r: CopyResult)
    requires ValidConfig(cfg) && (cfg.offsiteRoot != "" ==> Disjoint(cfg.offsiteRoot, mirror))
    modifies disk`fs
    ensures CopyOutcome(sha, json, cfg, old(disk.fs), disk.fs, disk.calm, id, mirror, now, r)
    ensures r.verified <==> r.status == "verified"
  {
    hide *;
    ghost var before := disk.fs;
    var until := now + cfg.retention;
    NotVerifiedStatus(OffsiteDir(cfg, id), until);
    NotVerifiedStatus("", until);
    if cfg.offsiteRoot == "" {
      NotConfiguredOutcome(sha, json, cfg, before, disk.calm, id, mirror, now);
      return NotConfigured(until);
    }
    var unavailable := disk.Fault();
    if id == "" || mirror == "" || unavailable || mirror !in disk.fs {
      RefusedOutcome(sha, json, cfg, before, disk.calm, id, mirror, now);
      return Failed("", until);
    }
    var copy := OffsiteDir(cfg, id);
    CopyIsApart(cfg, id, mirror);
    EnforceFilesystemRetention(disk, json, cfg.offsiteRoot, now);
    ghost var mid := disk.fs;
    r := CopyIfAbsent(disk, sha, json, id, mirror, copy, until);
    CopiedOutcome(sha, json, cfg, before, mid, disk.fs, disk.calm, id, mirror, now, r);
  }

  lemma CopyIsApart(cfg: Config, id: string, mirror: string)
    requires Disjoint(cfg.offsiteRoot, mirror)
    ensures Disjoint(mirror, OffsiteDir(cfg, id))
  {
    hide Disjoint;
    JoinIsBelow(cfg.offsiteRoot, id);
    DisjointFromInner(cfg.offsiteRoot, OffsiteDir(cfg, id), mirror);
    DisjointSymmetric(OffsiteDir(cfg, id), mirror);
  }

  lemma RetentionFacts(before: FS, mid: FS, doomed: set<string>, roots: set<string>, mirror: string, copy: string,
                       root: string, calm: bool)
    requires Kept(before, mid, doomed) && doomed <= roots && Apart(mirror, roots) && mirror in before
    requires Solid(root) && (calm && !Blank(root) ==> Pruned(before, mid, doomed))
    ensures Kept(before, mid, roots) && Apart(mirror, doomed)
    ensures mirror in mid && mid[mirror] == before[mirror]
    ensures copy in before && Outside(copy, doomed) ==> Exists(mid, copy)
    ensures calm && !Exists(before, copy) ==> !Exists(mid, copy)
    ensures calm && WayIsClear(before, mirror, copy) ==> WayIsClear(mid, mirror, copy)
  {
    KeptMore(before, mid, doomed, roots);
    ApartMeansOutside(mirror, doomed, mirror);
    assert KeptAt(before, mid, mirror);
    assert Under(copy, copy);
    if Outside(copy, doomed) {
      assert KeptAt(before, mid, copy);
    }
    TrimSolid(root);
    if calm {
      PrunedIsFewer(before, mid, doomed);
      FewerMeansClearer(before, mid, copy);
      FewerMeansClearer(before, mid, MetadataPath(mirror));
      if !Exists(before, copy) {
        StillAbsent(before, mid, doomed, copy);
      }
    }
  }

  // ---------------------------------------------------------------- copies and later passes

  /** Decoding undoes encoding for the metadata. */
  ghost predicate MetadataDecodes(json: Json) {
    forall m :: json.decodeMetadata(json.encodeMetadata(m)) == Some(m)
  }

  /** A verified copy is an entry of the offsite root, with the time it may be deleted in its metadata. */
  lemma CopyHasItsTime(sha: Sha, json: Json, cfg: Config, before: FS, after: FS, calm: bool, id: string, mirror: string,
                       now: int, r: CopyResult)
    requires CopyOutcome(sha, json, cfg, before, after, calm, id, mirror, now, r) && r.verified
    requires MetadataDecodes(json) && '/' !in id
    ensures id in DirNames(after, cfg.offsiteRoot)
    ensures MetadataAt(json, after, Join(cfg.offsiteRoot, id)).Some?
    ensures MetadataAt(json, after, Join(cfg.offsiteRoot, id)).value.retentionUntil == now + cfg.retention
  {
    hide Kept, DoomedTrees, CopyRoots, Outside, Gone, DirsNear, AfterRetention, Copyable, SealedTree, DirNames,
        TreeDigest.Digest, Files;
    DigestMeansDirectory(sha, after, r.path);
    DirNamesAre(after, cfg.offsiteRoot, id);
  }

  /**
    A copy made at `now` is safe from every retention pass up to its time, whatever fails; an undisturbed pass after its
    time leaves nothing of it where a greater name stands beside it.  A time of 0 stands for none: such a copy is kept
    for ever.
   */
  lemma CopyIsKeptForItsTime(sha: Sha, json: Json, cfg: Config, before: FS, after: FS, calm: bool, id: string,
                             mirror: string, now: int, r: CopyResult, later: FS, undisturbed: bool, at: int)
    requires CopyOutcome(sha, json, cfg, before, after, calm, id, mirror, now, r) && r.verified
    requires MetadataDecodes(json) && '/' !in id
    requires RetentionByTime(json, cfg.offsiteRoot, after, later, undisturbed, at)
    ensures at <= now + cfg.retention || now + cfg.retention == 0 ==>
              TreeStays(after, later, Join(cfg.offsiteRoot, id))
    ensures undisturbed && at > now + cfg.retention && now + cfg.retention != 0 ==>
              (exists k :: k in DirNames(after, cfg.offsiteRoot) && Less(id, k)) ==>
                !Exists(later, Join(cfg.offsiteRoot, id))
  {
    hide *;
    CopyHasItsTime(sha, json, cfg, before, after, calm, id, mirror, now, r);
    ItsTime(json, cfg.offsiteRoot, after, later, undisturbed, at, id, now + cfg.retention);
  }

  lemma ItsTime(json: Json, root: string, before: FS, after: FS, calm: bool, at: int, n: string, until: int)
    requires RetentionByTime(json, root, before, after, calm, at) && n in DirNames(before, root)
    requires MetadataAt(json, before, Join(root, n)).Some?
    requires MetadataAt(json, before, Join(root, n)).value.retentionUntil == until
    ensures at <= until || until == 0 ==> TreeStays(before, after, Join(root, n))
    ensures calm && at > until && until != 0 ==>
              (exists k :: k in DirNames(before, root) && Less(n, k)) ==> !Exists(after, Join(root, n))
  {
    hide TreeStays, Exists, DirNames, Less, MetadataAt, Join;
    assert CopyByTime(json, root, before, after, calm, at, n);
  }
}
