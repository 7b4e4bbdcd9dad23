/**
  The part of the file system the recovery chain works on: a tree, as a map from paths to directories and files.
  Every step can fail, and a step that fails may leave anything behind at the paths it works on.
 */
module FileSystem {
  import opened Common
  import opened TreeDigest
  import Text

  datatype Node = Dir(mode: nat) | File(content: string, mode: nat)

  type Paths = map<string, Node>

  /** Everything above this path is a directory. */
  predicate Rooted(fs: Paths, p: string) {
    forall k :: 0 <= k < |p| && p[k] == '/' ==> p[..k] in fs && fs[p[..k]].Dir?
  }

  predicate IsTree(fs: Paths) {
    forall p {:trigger Rooted(fs, p)} :: p in fs ==> Rooted(fs, p)
  }

  /** Nothing lies below a regular file or below a path that is not there. */
  type FS = fs: Paths | IsTree(fs)

  function Join(dir: string, name: string): string {
    dir + "/" + name
  }

  predicate Below(root: string, p: string) {
    |p| > |root| && p[..|root|] == root && p[|root|] == '/'
  }

  /** `p` is the root of the tree or lies in it. */
  predicate Under(root: string, p: string) {
    p == root || Below(root, p)
  }

  lemma JoinIsBelow(root: string, name: string)
    ensures Below(root, Join(root, name))
  {
  }

  lemma BelowTransitive(a: string, b: string, c: string)
    requires Below(a, b) && Under(b, c)
    ensures Below(a, c)
  {
    if c != b {
      assert c[..|a|] == b[..|a|];
      assert c[|a|] == b[|a|];
    }
  }

  lemma UnderTransitive(a: string, b: string, c: string)
    requires Under(a, b) && Under(b, c)
    ensures Under(a, c)
  {
    if a != b {
      BelowTransitive(a, b, c);
    }
  }

  /** Two trees have no path in common. */
  predicate Disjoint(a: string, b: string) {
    !Under(a, b) && !Under(b, a)
  }

  lemma DisjointSymmetric(a: string, b: string)
    ensures Disjoint(a, b) == Disjoint(b, a)
  {
  }

  /** Two trees that share a path are nested. */
  lemma SharedPathMeansNested(a: string, b: string, p: string)
    requires Under(a, p) && Under(b, p)
    ensures Under(a, b) || Under(b, a)
  {
    if |a| <= |b| {
      assert b[..|a|] == p[..|a|];
    } else {
      assert a[..|b|] == p[..|b|];
    }
  }

  lemma DisjointTrees(a: string, b: string, p: string)
    requires Disjoint(a, b) && Under(a, p)
    ensures !Under(b, p)
  {
    if Under(b, p) {
      SharedPathMeansNested(a, b, p);
    }
  }

  function Rel(root: string, p: string): string
    requires Below(root, p)
  {
    p[|root| + 1..]
  }

  lemma RelInjective(root: string, p: string, q: string)
    requires Below(root, p) && Below(root, q) && Rel(root, p) == Rel(root, q)
    ensures p == q
  {
    assert p == p[..|root|] + [p[|root|]] + p[|root| + 1..];
    assert q == q[..|root|] + [q[|root|]] + q[|root| + 1..];
  }

  lemma RelOfJoin(root: string, name: string)
    ensures Below(root, Join(root, name)) && Rel(root, Join(root, name)) == name
  {
  }

  /** The regular files of a tree by relative path. */
  function Files(fs: FS, root: string): Tree {
    RelInjectiveAll(root);
    map p | p in fs && Below(root, p) && fs[p].File? :: Rel(root, p) := fs[p].content
  }

  lemma RelInjectiveAll(root: string)
    ensures forall p, q :: Below(root, p) && Below(root, q) && Rel(root, p) == Rel(root, q) ==> p == q
  {
    forall p, q | Below(root, p) && Below(root, q) && Rel(root, p) == Rel(root, q)
      ensures p == q
    {
      RelInjective(root, p, q);
    }
  }

  predicate IsDir(fs: Paths, p: string) {
    p in fs && fs[p].Dir?
  }

  predicate IsFile(fs: Paths, p: string) {
    p in fs && fs[p].File?
  }

  // ---------------------------------------------------------------- what stands in the way of a step

  /** No regular file stands above this path. */
  predicate NoFileAbove(fs: Paths, p: string) {
    forall k :: 0 <= k < |p| && p[k] == '/' ==> !IsFile(fs, p[..k])
  }

  /** A directory is here, or can be made here. */
  predicate Passable(fs: Paths, p: string) {
    NoFileAbove(fs, p) && !IsFile(fs, p)
  }

  /** A regular file is here, or can be made here. */
  predicate Writable(fs: Paths, p: string) {
    Rooted(fs, p) && !IsDir(fs, p)
  }

  lemma AboveIsDir(fs: FS, p: string, q: string)
    requires p in fs && Below(q, p)
    ensures IsDir(fs, q)
  {
    assert Rooted(fs, p);
    assert p[..|q|] == q;
  }

  lemma PresentIsClear(fs: FS, p: string)
    requires p in fs
    ensures Rooted(fs, p) && NoFileAbove(fs, p)
  {
  }

  /** A name in a directory has only directories above it. */
  lemma EntryIsRooted(fs: FS, dir: string, name: string)
    requires IsDir(fs, dir) && '/' !in name
    ensures Rooted(fs, Join(dir, name))
  {
    var p := Join(dir, name);
    assert Rooted(fs, dir);
    forall k | 0 <= k < |p| && p[k] == '/'
      ensures p[..k] in fs && fs[p[..k]].Dir?
    {
      if k < |dir| {
        assert p[..k] == dir[..k] && dir[k] == '/';
      } else {
        assert k == |dir| && p[..k] == dir;
      }
    }
  }

  /** What lies above a path keeps clear while only files elsewhere change. */
  lemma NoFileAboveKept(a: FS, b: FS, roots: set<string>, p: string)
    requires Kept(a, b, roots) && Apart(p, roots) && NoFileAbove(a, p)
    ensures NoFileAbove(b, p)
  {
    forall k | 0 <= k < |p| && p[k] == '/'
      ensures !IsFile(b, p[..k])
    {
      var q := p[..k];
      assert Below(q, p);
      forall r | r in roots
        ensures !Under(r, q)
      {
        if Under(r, q) {
          UnderTransitive(r, q, p);
        }
      }
      FileKept(a, b, roots, q);
    }
  }

  /** Some paths are gone, the others are as they were. */
  ghost predicate Fewer(a: FS, b: FS) {
    forall p :: p in b ==> p in a && b[p] == a[p]
  }

  lemma FewerTransitive(a: FS, b: FS, c: FS)
    requires Fewer(a, b) && Fewer(b, c)
    ensures Fewer(a, c)
  {
  }

  lemma FewerMeansClearer(a: FS, b: FS, p: string)
    requires Fewer(a, b)
    ensures NoFileAbove(a, p) ==> NoFileAbove(b, p)
    ensures IsDir(b, p) ==> IsDir(a, p)
    ensures IsFile(b, p) ==> IsFile(a, p)
  {
  }

  /** Every directory that is new lies in the tree or above it. */
  ghost predicate DirsNear(a: FS, b: FS, root: string) {
    forall q {:trigger IsDir(b, q)} :: IsDir(b, q) ==> IsDir(a, q) || Under(root, q) || Under(q, root)
  }

  lemma NoNewDirs(fs: FS, root: string)
    ensures DirsNear(fs, fs, root)
  {
  }

  lemma DirsNearTransitive(a: FS, b: FS, c: FS, root: string)
    requires DirsNear(a, b, root) && DirsNear(b, c, root)
    ensures DirsNear(a, c, root)
  {
    hide Under;
    forall q | IsDir(c, q)
      ensures IsDir(a, q) || Under(root, q) || Under(q, root)
    {
      assert IsDir(b, q) ==> IsDir(a, q) || Under(root, q) || Under(q, root);
    }
  }

  lemma FewerDirs(a: FS, b: FS, root: string)
    requires Fewer(a, b)
    ensures DirsNear(a, b, root)
  {
  }

  /** New directories above or in a tree inside this one. */
  lemma DirsNearInner(a: FS, b: FS, root: string, inner: string)
    requires Under(root, inner) && forall q {:trigger IsDir(b, q)} :: IsDir(b, q) ==> IsDir(a, q) || Under(q, inner)
    ensures DirsNear(a, b, root)
  {
    forall q | IsDir(b, q) && !IsDir(a, q)
      ensures Under(root, q) || Under(q, root)
    {
      if |q| <= |root| {
        assert root[..|q|] == inner[..|q|];
      } else {
        assert q[..|root|] == inner[..|root|];
      }
    }
  }

  /** No directory appears in a tree apart from that one. */
  lemma NoNewDirApart(a: FS, b: FS, root: string, other: string, q: string)
    requires DirsNear(a, b, root) && Disjoint(root, other) && Under(other, q)
    ensures IsDir(b, q) ==> IsDir(a, q)
  {
    DisjointTrees(other, root, q);
    if Under(q, root) {
      UnderTransitive(other, q, root);
    }
  }

  lemma FileIsTree(fs: FS, p: string, node: Node)
    requires Writable(fs, p) && node.File?
    ensures IsTree(fs[p := node])
  {
    var r := fs[p := node];
    forall q | q in r
      ensures Rooted(r, q)
    {
      assert q != p ==> Rooted(fs, q);
    }
  }

  lemma WithoutFileIsTree(fs: FS, p: string)
    requires IsFile(fs, p)
    ensures IsTree(fs - {p})
  {
    var r := fs - {p};
    forall q | q in r
      ensures Rooted(r, q)
    {
      assert Rooted(fs, q);
    }
  }

  lemma SameKindIsTree(fs: FS, p: string, node: Node)
    requires p in fs && node.Dir? == fs[p].Dir?
    ensures IsTree(fs[p := node])
  {
    var r := fs[p := node];
    forall q | q in r
      ensures Rooted(r, q)
    {
      assert Rooted(fs, q);
    }
  }

  /** directorySHA256 of what is on disk; None where there is no directory. */
  ghost function DigestAt(sha: Text.Sha, fs: FS, root: string): Option<string> {
    if IsDir(fs, root) then Some(Digest(sha, Files(fs, root))) else None
  }

  // ---------------------------------------------------------------- what a step leaves alone

  predicate SameAt(a: Paths, b: Paths, p: string) {
    (p in a <==> p in b) && (p in a ==> a[p] == b[p])
  }

  /** `p` is in none of the trees. */
  predicate Outside(p: string, roots: set<string>) {
    forall r :: r in roots ==> !Under(r, p)
  }

  /** The tree at `root` has no path in common with the others. */
  predicate Apart(root: string, roots: set<string>) {
    forall r :: r in roots ==> Disjoint(r, root)
  }

  predicate KeptAt(a: FS, b: FS, p: string) {
    SameAt(a, b, p) || (p !in a && IsDir(b, p))
  }

  /** Outside these trees nothing differs, except that missing directories may have been made. */
  ghost predicate Kept(a: FS, b: FS, roots: set<string>) {
    forall p {:trigger KeptAt(a, b, p)} :: Outside(p, roots) ==> KeptAt(a, b, p)
  }

  lemma KeptTransitive(a: FS, b: FS, c: FS, roots: set<string>)
    requires Kept(a, b, roots) && Kept(b, c, roots)
    ensures Kept(a, c, roots)
  {
    forall p | Outside(p, roots)
      ensures KeptAt(a, c, p)
    {
      assert KeptAt(a, b, p) && KeptAt(b, c, p);
    }
  }

  /** A change inside a tree of `roots`. */
  lemma KeptWider(a: FS, b: FS, root: string, roots: set<string>)
    requires Kept(a, b, {root}) && !Outside(root, roots)
    ensures Kept(a, b, roots)
  {
    forall p | Outside(p, roots)
      ensures KeptAt(a, b, p)
    {
      var r :| r in roots && Under(r, root);
      if Under(root, p) {
        UnderTransitive(r, root, p);
      }
      assert Outside(p, {root});
    }
  }

  lemma KeptMore(a: FS, b: FS, roots: set<string>, more: set<string>)
    requires Kept(a, b, roots) && roots <= more
    ensures Kept(a, b, more)
  {
    forall p | Outside(p, more)
      ensures KeptAt(a, b, p)
    {
      assert Outside(p, roots);
    }
  }

  /** Changes inside some trees, each of which lies in one of `more`. */
  lemma KeptCovered(a: FS, b: FS, roots: set<string>, more: set<string>)
    requires Kept(a, b, roots) && forall r :: r in roots ==> !Outside(r, more)
    ensures Kept(a, b, more)
  {
    forall p | Outside(p, more)
      ensures KeptAt(a, b, p)
    {
      forall r | r in roots
        ensures !Under(r, p)
      {
        if Under(r, p) {
          var m :| m in more && Under(m, r);
          UnderTransitive(m, r, p);
        }
      }
      assert Outside(p, roots);
    }
  }

  lemma ApartMeansOutside(root: string, roots: set<string>, p: string)
    requires Apart(root, roots) && Under(root, p)
    ensures Outside(p, roots)
  {
    forall r | r in roots
      ensures !Under(r, p)
    {
      DisjointTrees(root, r, p);
    }
  }

  /** Regular files elsewhere stay as they are, and none appears. */
  lemma FileKept(a: FS, b: FS, roots: set<string>, p: string)
    requires Kept(a, b, roots) && Outside(p, roots)
    ensures IsFile(a, p) <==> IsFile(b, p)
    ensures IsFile(a, p) ==> b[p] == a[p]
  {
    assert KeptAt(a, b, p);
  }

  /** So does the digest of a directory elsewhere. */
  lemma DigestKept(sha: Text.Sha, a: FS, b: FS, roots: set<string>, root: string)
    requires Kept(a, b, roots) && Apart(root, roots) && IsDir(a, root)
    ensures DigestAt(sha, b, root) == DigestAt(sha, a, root)
  {
    ApartMeansOutside(root, roots, root);
    assert KeptAt(a, b, root);
    forall p | Below(root, p)
      ensures SameFile(a, b, p)
    {
      ApartMeansOutside(root, roots, p);
      FileKept(a, b, roots, p);
    }
    SameFiles(a, b, root);
  }

  /** The content of a regular file. */
  function Read(fs: FS, p: string): Option<string> {
    if p in fs && fs[p].File? then Some(fs[p].content) else None
  }

  predicate SameFile(a: FS, b: FS, p: string) {
    Read(a, p) == Read(b, p)
  }

  /** An entry of the contents of a tree. */
  lemma FilesAt(fs: FS, root: string, n: string)
    ensures n in Files(fs, root) <==> Read(fs, Join(root, n)).Some?
    ensures n in Files(fs, root) ==> Files(fs, root)[n] == Read(fs, Join(root, n)).value
  {
    RelOfJoin(root, n);
    RelInjectiveAll(root);
  }

  lemma SameFiles(a: FS, b: FS, root: string)
    requires forall p {:trigger SameFile(a, b, p)} :: Below(root, p) ==> SameFile(a, b, p)
    ensures Files(a, root) == Files(b, root)
  {
    hide Files, Below, Read, Join;
    var f, g := Files(a, root), Files(b, root);
    forall n
      ensures n in f <==> n in g
      ensures n in f ==> f[n] == g[n]
    {
      JoinIsBelow(root, n);
      assert SameFile(a, b, Join(root, n));
      FilesAt(a, root, n);
      FilesAt(b, root, n);
    }
    assert f.Keys == g.Keys;
  }

  // ---------------------------------------------------------------- states after a step

  lemma InItself(p: string)
    ensures !Outside(p, {p})
  {
    assert Under(p, p);
  }

  lemma KeptNothing(fs: FS, roots: set<string>)
    ensures Kept(fs, fs, roots)
  {
  }

  lemma NotAFile(fs: FS, p: string)
    requires IsDir(fs, p)
    ensures !IsFile(fs, p)
  {
  }

  lemma ReadKept(before: FS, after: FS, roots: set<string>, p: string)
    requires Kept(before, after, roots) && Outside(p, roots)
    ensures Read(after, p) == Read(before, p) && IsFile(after, p) == IsFile(before, p) && SameFile(before, after, p)
  {
    FileKept(before, after, roots, p);
  }

  lemma DigestMeansDirectory(sha: Text.Sha, fs: FS, root: string)
    requires DigestAt(sha, fs, root).Some?
    ensures IsDir(fs, root) && !IsFile(fs, root)
  {
  }

  /** `fs` with the whole tree replaced by whatever `left` has there. */
  function Replaced(fs: Paths, root: string, left: Paths): (r: Paths)
    ensures forall p :: !Under(root, p) ==> SameAt(fs, r, p)
    ensures forall p :: Under(root, p) ==> SameAt(left, r, p)
  {
    var r := (map p | p in fs && !Under(root, p) :: fs[p]) + (map p | p in left && Under(root, p) :: left[p]);
    assert forall p :: !Under(root, p) ==> SameAt(fs, r, p);
    r
  }

  lemma ReplacedKept(fs: FS, root: string, left: FS, r: FS)
    requires r == Replaced(fs, root, left)
    ensures Kept(fs, r, {root})
  {
    forall p | Outside(p, {root})
      ensures KeptAt(fs, r, p)
    {
      assert SameAt(fs, r, p);
    }
  }

  /** A file written with new content; an existing file keeps its mode. */
  function Written(fs: FS, p: string, content: string, mode: nat): FS
    requires Writable(fs, p)
  {
    var node := File(content, if IsFile(fs, p) then fs[p].mode else mode);
    FileIsTree(fs, p, node);
    fs[p := node]
  }

  function Removed(fs: FS, root: string): (r: FS)
    ensures Kept(fs, r, {root}) && !Exists(r, root)
    ensures forall p :: !Under(root, p) ==> SameAt(fs, r, p)
    ensures Fewer(fs, r)
  {
    RemovedIsTree(fs, root);
    map p | p in fs && !Under(root, p) :: fs[p]
  }

  lemma RemovedIsTree(fs: FS, root: string)
    ensures IsTree(map p | p in fs && !Under(root, p) :: fs[p])
  {
    var r := map p | p in fs && !Under(root, p) :: fs[p];
    forall q | q in r
      ensures Rooted(r, q)
    {
      assert Rooted(fs, q);
      forall k | 0 <= k < |q| && q[k] == '/'
        ensures !Under(root, q[..k])
      {
        if Under(root, q[..k]) {
          UnderTransitive(root, q[..k], q);
        }
      }
    }
  }

  /** Something is there. */
  predicate Exists(fs: FS, root: string) {
    exists p :: p in fs && Under(root, p)
  }

  /** `p` and every directory above it that is missing. */
  function Missing(fs: Paths, p: string, mode: nat): (r: Paths)
    ensures forall q :: q in r ==> q !in fs && Under(q, p) && r[q].Dir?
    ensures p in fs || p in r
    ensures forall k :: 0 <= k < |p| && p[k] == '/' ==> p[..k] in fs || p[..k] in r
  {
    var n := |p|;
    assert p[..n] == p;
    map k | 0 <= k <= n && (k == n || p[k] == '/') && p[..k] !in fs :: p[..k] := Dir(mode)
  }

  /** `p` and every directory above it, where missing, as new directories. */
  function Made(fs: FS, p: string, mode: nat): (r: FS)
    requires Passable(fs, p)
    ensures forall q :: q in fs ==> q in r && r[q] == fs[q]
    ensures forall q :: q in r && q !in fs ==> r[q].Dir? && Under(q, p)
    ensures IsDir(r, p)
  {
    MadeIsTree(fs, p, mode);
    Missing(fs, p, mode) + fs
  }

  lemma MadeIsTree(fs: FS, p: string, mode: nat)
    requires NoFileAbove(fs, p)
    ensures IsTree(Missing(fs, p, mode) + fs)
  {
    var missing := Missing(fs, p, mode);
    var r := missing + fs;
    forall q | q in r
      ensures Rooted(r, q)
    {
      if q in fs {
        assert Rooted(fs, q);
      } else {
        forall k | 0 <= k < |q| && q[k] == '/'
          ensures q[..k] in r && r[q[..k]].Dir?
        {
          assert q[..k] == p[..k] && p[k] == '/';
          assert !IsFile(fs, p[..k]);
        }
      }
    }
  }

  lemma MadeFiles(fs: FS, p: string, mode: nat, root: string)
    requires Passable(fs, p)
    ensures Files(Made(fs, p, mode), root) == Files(fs, root)
  {
    var r := Made(fs, p, mode);
    forall q | Below(root, q)
      ensures SameFile(fs, r, q)
    {
    }
    SameFiles(fs, r, root);
  }

  /** Writing one file of a tree changes that entry of its contents. */
  lemma WrittenFiles(fs: FS, r: FS, p: string, content: string, mode: nat, root: string)
    requires Below(root, p) && r == fs[p := File(content, mode)]
    ensures Files(r, root) == Files(fs, root)[Rel(root, p) := content]
  {
    RelInjectiveAll(root);
    var f, g := Files(r, root), Files(fs, root)[Rel(root, p) := content];
    forall n | n in f || n in g
      ensures n in f && n in g && f[n] == g[n]
    {
      assert Join(root, n)[..|root|] == root;
      if n == Rel(root, p) {
        assert p in r;
      }
    }
  }

  /** A new or changed regular file adds its name to its tree. */
  lemma WrittenNames(fs: FS, after: FS, root: string, name: string)
    requires IsFile(after, Join(root, name)) && after == fs[Join(root, name) := after[Join(root, name)]]
    ensures Files(after, root).Keys == Files(fs, root).Keys + {name}
  {
    RelOfJoin(root, name);
    var node := after[Join(root, name)];
    WrittenFiles(fs, after, Join(root, name), node.content, node.mode, root);
  }
}
