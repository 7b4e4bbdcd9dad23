/**
  The file operations of the recovery chain: the copy, digest, chmod and removal helpers of
  backend/backup/offsite.go:326-435, backend/backup/reconciliation.go:574-625 and
  backend/backup/backup_service.go:791-857.
 */
module Storage {
  import opened Common
  import opened FileSystem
  import opened Order
  import opened Text
  import TreeDigest

  const PRIVATE_DIR: nat := 448   // 0700
  const PRIVATE_FILE: nat := 384  // 0600
  const SEALED_DIR: nat := 320    // 0500
  const SEALED_FILE: nat := 256   // 0400

  /** The directories in a directory, by name. */
  function DirNames(fs: FS, root: string): set<string> {
    set p | p in fs && fs[p].Dir? && Below(root, p) && '/' !in Rel(root, p) :: Rel(root, p)
  }

  lemma DirNamesAre(fs: FS, root: string, name: string)
    ensures name in DirNames(fs, root) <==> IsDir(fs, Join(root, name)) && '/' !in name
  {
    RelOfJoin(root, name);
    if name in DirNames(fs, root) {
      var p :| p in fs && fs[p].Dir? && Below(root, p) && '/' !in Rel(root, p) && Rel(root, p) == name;
      RelInjective(root, p, Join(root, name));
    }
  }

  /** A regular file, or a path below one, has no directories in it. */
  lemma NoDirNames(fs: FS, root: string)
    requires !Passable(fs, root)
    ensures DirNames(fs, root) == {}
  {
    forall p | p in fs
      ensures !Below(root, p)
    {
      if Below(root, p) {
        AboveIsDir(fs, p, root);
        PresentIsClear(fs, root);
      }
    }
  }

  /** Same paths, same contents; only modes may differ. */
  ghost predicate OnlyModesDiffer(a: FS, b: FS, root: string) {
    && a.Keys == b.Keys
    && forall p {:trigger SameContent(a, b, p)} :: p in a && p in b ==>
        SameContent(a, b, p) && (Under(root, p) || a[p] == b[p])
  }

  predicate SameContent(a: FS, b: FS, p: string)
    requires p in a && p in b
  {
    a[p].File? == b[p].File? && (a[p].File? ==> a[p].content == b[p].content)
  }

  lemma ModesDoNotMatter(a: FS, b: FS, root: string, tree: string)
    requires OnlyModesDiffer(a, b, root)
    ensures Files(b, tree) == Files(a, tree) && IsDir(a, tree) == IsDir(b, tree)
  {
    forall p
      ensures p in a ==> SameContent(a, b, p)
    {
    }
    forall p | Below(tree, p)
      ensures SameFile(a, b, p)
    {
      if p in a {
        assert SameContent(a, b, p);
      }
    }
    SameFiles(a, b, tree);
    if tree in a {
      assert SameContent(a, b, tree);
    }
  }

  lemma OnePathChanged(base: FS, before: FS, after: FS, path: string, roots: set<string>)
    requires Kept(base, before, roots) && !Outside(path, roots)
    requires forall p :: p != path ==> SameAt(before, after, p)
    ensures Kept(base, after, roots)
  {
    forall p | Outside(p, roots)
      ensures KeptAt(before, after, p)
    {
    }
    KeptTransitive(base, before, after, roots);
  }

  // ---------------------------------------------------------------- a copy in progress

  /** "" for the root of a tree, otherwise a slash and the relative path. */
  predicate Tail(t: string) {
    t == "" || t[0] == '/'
  }

  /** A directory for a directory, a file with the same content for a file. */
  predicate SameKind(m: Node, n: Node) {
    m.Dir? == n.Dir? && (m.File? ==> m.content == n.content)
  }

  /** What the copy has at `destination + t` once the paths in `done` are copied. */
  ghost predicate CopiedAt(before: FS, fs: FS, source: string, destination: string, done: set<string>, t: string) {
    && (destination + t in fs <==> source + t in done)
    && (source + t in done ==>
          && source + t in before && destination + t in fs
          && SameKind(before[source + t], fs[destination + t]))
  }

  ghost predicate CopiedSoFar(before: FS, fs: FS, source: string, destination: string, done: set<string>) {
    forall t {:trigger CopiedAt(before, fs, source, destination, done, t)} ::
      Tail(t) ==> CopiedAt(before, fs, source, destination, done, t)
  }

  ghost predicate Extends(a: FS, b: FS) {
    forall p :: p in a ==> p in b && b[p] == a[p]
  }

  lemma TailIsUnder(root: string, t: string)
    requires Tail(t)
    ensures Under(root, root + t)
  {
  }

  lemma TargetIsOutside(destination: string, t: string, roots: set<string>)
    requires Tail(t) && !Outside(destination, roots)
    ensures !Outside(destination + t, roots)
  {
    var r :| r in roots && Under(r, destination);
    TailIsUnder(destination, t);
    UnderTransitive(r, destination, destination + t);
  }

  lemma NothingCopied(fs: FS, source: string, destination: string)
    requires !Exists(fs, destination)
    ensures CopiedSoFar(fs, fs, source, destination, {})
  {
    forall t | Tail(t)
      ensures CopiedAt(fs, fs, source, destination, {}, t)
    {
      TailIsUnder(destination, t);
    }
  }

  /** What is above a path comes before it. */
  lemma {:induction false} PrefixIsLess(q: string, p: string)
    requires |q| < |p| && p[..|q|] == q
    ensures Less(q, p)
  {
    if q != [] {
      assert p[1..][..|q| - 1] == q[1..] && q[0] == p[0];
      PrefixIsLess(q[1..], p[1..]);
    }
  }

  /** In the order of the walk, the directories above a path are visited before it. */
  lemma ParentsFirst(fs: FS, source: string, paths: seq<string>, i: nat, q: string)
    requires Ascending(paths) && (forall p :: p in paths <==> p in fs && Under(source, p))
    requires i < |paths| && Below(q, paths[i]) && Under(source, q)
    ensures q in fs && fs[q].Dir? && q in ToSet(paths[..i])
  {
    AboveIsDir(fs, paths[i], q);
    var j :| 0 <= j < |paths| && paths[j] == q;
    PrefixIsLess(q, paths[i]);
    if j >= i {
      if j > i {
        LessTransitive(q, paths[i], q);
      }
      LessIrreflexive(q);
    }
    assert paths[..i][j] == q;
  }

  /** A path below the root of the copy has its directory there already. */
  lemma TargetIsRooted(before: FS, fs: FS, source: string, destination: string, done: set<string>, t: string)
    requires CopiedSoFar(before, fs, source, destination, done) && Tail(t) && t != ""
    requires forall q {:trigger Below(q, source + t)} :: Below(q, source + t) && Under(source, q) ==>
               q in before && before[q].Dir? && q in done
    ensures Rooted(fs, destination + t)
  {
    var p := destination + t;
    CopiedDir(before, fs, source, destination, done, t, "");
    assert destination + "" == destination;
    assert Rooted(fs, destination);
    forall k | 0 <= k < |p| && p[k] == '/'
      ensures p[..k] in fs && fs[p[..k]].Dir?
    {
      if k < |destination| {
        assert p[..k] == destination[..k];
      } else {
        var u := t[..k - |destination|];
        assert p[..k] == destination + u;
        CopiedDir(before, fs, source, destination, done, t, u);
      }
    }
  }

  lemma CopiedDir(before: FS, fs: FS, source: string, destination: string, done: set<string>, t: string, u: string)
    requires CopiedSoFar(before, fs, source, destination, done) && Tail(t)
    requires forall q {:trigger Below(q, source + t)} :: Below(q, source + t) && Under(source, q) ==>
               q in before && before[q].Dir? && q in done
    requires |u| < |t| && t[..|u|] == u && t[|u|] == '/'
    ensures destination + u in fs && fs[destination + u].Dir?
  {
    assert Tail(u);
    TailIsUnder(source, u);
    assert (source + t)[..|source + u|] == source + u;
    assert Below(source + u, source + t);
    assert CopiedAt(before, fs, source, destination, done, u);
  }

  /** One more path is copied, after all that are above it. */
  lemma CopyStep(before: FS, mid: FS, fs: FS, source: string, destination: string, done: set<string>, t: string)
    requires Tail(t) && CopiedSoFar(before, mid, source, destination, done)
    requires source + t in before && destination + t in fs && SameKind(before[source + t], fs[destination + t])
    requires forall q {:trigger Below(q, source + t)} :: Below(q, source + t) && Under(source, q) ==> q in done
    requires forall p :: p in mid && p != destination + t ==> p in fs && fs[p] == mid[p]
    requires forall p :: p in fs && p !in mid ==> Under(p, destination + t)
    ensures CopiedSoFar(before, fs, source, destination, done + {source + t})
  {
    forall u | Tail(u)
      ensures CopiedAt(before, fs, source, destination, done + {source + t}, u)
    {
      assert CopiedAt(before, mid, source, destination, done, u);
      var q := destination + u;
      assert (source + u)[|source|..] == u && (source + t)[|source|..] == t;
      assert q[|destination|..] == u && (destination + t)[|destination|..] == t;
      if u != t && q in fs && q !in mid {
        assert Under(q, destination + t);
        assert (destination + t)[..|q|] == q && (destination + t)[|q|] == '/';
        assert t[..|u|] == u && t[|u|] == '/';
        assert (source + t)[..|source + u|] == source + u && (source + t)[|source + u|] == '/';
        TailIsUnder(source, u);
        assert Below(source + u, source + t);
      }
    }
  }

  lemma CopiedFiles(before: FS, fs: FS, source: string, destination: string, done: set<string>)
    requires CopiedSoFar(before, fs, source, destination, done)
    requires forall p :: p in done <==> p in before && Under(source, p)
    ensures Files(fs, destination) == Files(before, source)
  {
    var f, g := Files(fs, destination), Files(before, source);
    forall n
      ensures SameEntry(f, g, n)
    {
      CopiedEntry(before, fs, source, destination, done, n);
    }
    SameEntries(f, g);
  }

  lemma CopiedDirectory(before: FS, fs: FS, source: string, destination: string, done: set<string>, n: string)
    requires CopiedSoFar(before, fs, source, destination, done)
    requires forall p :: p in done <==> p in before && Under(source, p)
    ensures IsDir(fs, Join(destination, n)) <==> IsDir(before, Join(source, n))
  {
    var t := "/" + n;
    TailIsUnder(source, t);
    assert CopiedAt(before, fs, source, destination, done, t);
    assert source + t == Join(source, n) && destination + t == Join(destination, n);
  }

  lemma CopiedEntry(before: FS, fs: FS, source: string, destination: string, done: set<string>, n: string)
    requires CopiedSoFar(before, fs, source, destination, done)
    requires forall p :: p in done <==> p in before && Under(source, p)
    ensures SameEntry(Files(fs, destination), Files(before, source), n)
  {
    var t := "/" + n;
    assert CopiedAt(before, fs, source, destination, done, t);
    TailIsUnder(source, t);
    assert source + t == Join(source, n) && destination + t == Join(destination, n);
    InFiles(before, source, n);
    InFiles(fs, destination, n);
  }

  predicate SameEntry(f: TreeDigest.Tree, g: TreeDigest.Tree, n: string) {
    (n in f <==> n in g) && (n in f ==> f[n] == g[n])
  }

  lemma SameEntries(f: TreeDigest.Tree, g: TreeDigest.Tree)
    requires forall n {:trigger SameEntry(f, g, n)} :: SameEntry(f, g, n)
    ensures f == g
  {
    assert forall n :: SameEntry(f, g, n) ==> (n in f <==> n in g) && (n in f ==> f[n] == g[n]);
  }

  lemma InFiles(fs: FS, root: string, n: string)
    ensures n in Files(fs, root) <==> IsFile(fs, Join(root, n))
    ensures n in Files(fs, root) ==> Files(fs, root)[n] == fs[Join(root, n)].content
  {
    hide Files, Join;
    FilesAt(fs, root, n);
  }

  // ---------------------------------------------------------------- a walk

  function VisitOf(fs: FS, root: string, p: string): TreeDigest.Visit
    requires p in fs && Below(root, p)
  {
    match fs[p]
    case Dir(_) => TreeDigest.Visit(Rel(root, p), TreeDigest.Directory, "")
    case File(content, _) => TreeDigest.Visit(Rel(root, p), TreeDigest.Regular, content)
  }

  lemma WalkOf(fs: FS, root: string, paths: seq<string>, walk: seq<TreeDigest.Visit>)
    requires |walk| == |paths| && TreeDigest.OnceEach(walk)
    requires forall i :: 0 <= i < |paths| ==> paths[i] in fs && Below(root, paths[i])
    requires forall i :: 0 <= i < |paths| ==> walk[i] == VisitOf(fs, root, paths[i])
    requires forall p :: p in fs && Below(root, p) ==> p in paths
    ensures TreeDigest.TreeOf(walk) == Files(fs, root)
  {
    var f, g := Files(fs, root), TreeDigest.TreeOf(walk);
    forall n
      ensures SameEntry(g, f, n)
    {
      WalkEntry(fs, root, paths, walk, n);
    }
    hide Files, TreeDigest.TreeOf;
    SameEntries(g, f);
  }

  lemma WalkHas(walk: seq<TreeDigest.Visit>, i: nat)
    requires TreeDigest.OnceEach(walk) && i < |walk|
    ensures walk[i].kind.Regular? ==> walk[i].rel in TreeDigest.TreeOf(walk)
    ensures walk[i].kind.Regular? ==> TreeDigest.TreeOf(walk)[walk[i].rel] == walk[i].content
  {
  }

  lemma WalkFinds(walk: seq<TreeDigest.Visit>, n: string) returns (i: nat)
    requires TreeDigest.OnceEach(walk) && n in TreeDigest.TreeOf(walk)
    ensures i < |walk| && walk[i].kind.Regular? && walk[i].rel == n
  {
    i :| 0 <= i < |walk| && walk[i].kind.Regular? && walk[i].rel == n;
  }

  lemma WalkEntry(fs: FS, root: string, paths: seq<string>, walk: seq<TreeDigest.Visit>, n: string)
    requires |walk| == |paths| && TreeDigest.OnceEach(walk)
    requires forall i :: 0 <= i < |paths| ==> paths[i] in fs && Below(root, paths[i])
    requires forall i :: 0 <= i < |paths| ==> walk[i] == VisitOf(fs, root, paths[i])
    requires forall p :: p in fs && Below(root, p) ==> p in paths
    ensures SameEntry(TreeDigest.TreeOf(walk), Files(fs, root), n)
  {
    InFiles(fs, root, n);
    RelOfJoin(root, n);
    hide Files, Below, Rel, TreeDigest.TreeOf, TreeDigest.OnceEach;
    var p, g := Join(root, n), TreeDigest.TreeOf(walk);
    if p in paths {
      var i :| 0 <= i < |paths| && paths[i] == p;
      assert walk[i] == VisitOf(fs, root, p);
      assert walk[i].rel == n;
      WalkHas(walk, i);
    }
    if n in g {
      var i := WalkFinds(walk, n);
      RelInjective(root, paths[i], p);
      WalkHas(walk, i);
    }
  }

  /** The tree a walk from a regular file reports; the file is left out when it is named like the metadata. */
  function Alone(path: string, content: string): TreeDigest.Tree {
    if TreeDigest.Base(path) == TreeDigest.METADATA then map[] else map["." := content]
  }

  function WithMode(n: Node, fileMode: nat, dirMode: nat): Node {
    if n.Dir? then Dir(dirMode) else n.(mode := fileMode)
  }

  lemma ToSetAppend(list: seq<string>, x: string)
    ensures ToSet(list + [x]) == ToSet(list) + {x}
  {
  }

  lemma ChmodStep(before: FS, mid: FS, after: FS, root: string, p: string)
    requires OnlyModesDiffer(before, mid, root) && p in mid && Under(root, p)
    requires after == mid[p := WithMode(mid[p], SEALED_FILE, SEALED_DIR)]
    ensures OnlyModesDiffer(before, after, root)
  {
    forall q | q in before && q in after
      ensures SameContent(before, after, q) && (Under(root, q) || before[q] == after[q])
    {
      assert SameContent(before, mid, q);
    }
  }

  predicate Sealed(n: Node) {
    n.mode == if n.Dir? then 320 else 256
  }

  /** A tree nobody can write to. */
  ghost predicate SealedTree(fs: FS, root: string) {
    forall p :: p in fs && Under(root, p) ==> Sealed(fs[p])
  }

  lemma PathIsOutside(root: string, p: string, roots: set<string>)
    requires !Outside(root, roots) && Under(root, p)
    ensures !Outside(p, roots)
  {
    var r :| r in roots && Under(r, root);
    UnderTransitive(r, root, p);
  }

  /** Where a path is not there, nothing below it is. */
  lemma NothingBelow(fs: FS, root: string)
    requires root !in fs
    ensures !Exists(fs, root) && fs == Removed(fs, root)
  {
    forall p | p in fs
      ensures !Under(root, p)
    {
      if Below(root, p) {
        AboveIsDir(fs, p, root);
      }
    }
  }

  /** The way to the next path of a copy is clear. */
  lemma TargetIsClear(before: FS, fs: FS, source: string, destination: string, paths: seq<string>, i: nat, t: string)
    requires Ascending(paths) && (forall p :: p in paths <==> p in before && Under(source, p))
    requires i < |paths| && paths[i] == source + t && Tail(t) && IsDir(before, source)
    requires CopiedSoFar(before, fs, source, destination, ToSet(paths[..i])) && NoFileAbove(fs, destination)
    ensures Passable(fs, destination + t) && (before[source + t].File? ==> Writable(fs, destination + t))
  {
    NotYet(paths, i);
    assert CopiedAt(before, fs, source, destination, ToSet(paths[..i]), t);
    if t == "" {
      assert destination + t == destination && source + t == source;
    } else {
      forall q | Below(q, source + t) && Under(source, q)
        ensures q in before && before[q].Dir? && q in ToSet(paths[..i])
      {
        ParentsFirst(before, source, paths, i, q);
      }
      TargetIsRooted(before, fs, source, destination, ToSet(paths[..i]), t);
    }
  }

  /** Files below a path do not stand above it. */
  lemma StillClear(mid: FS, fs: FS, destination: string, t: string)
    requires NoFileAbove(mid, destination)
    requires forall p :: p in fs && fs[p].File? && p != destination + t ==> IsFile(mid, p)
    ensures NoFileAbove(fs, destination)
  {
    forall k | 0 <= k < |destination| && destination[k] == '/'
      ensures !IsFile(fs, destination[..k])
    {
      assert |destination[..k]| < |destination + t|;
    }
  }

  lemma NotYet(paths: seq<string>, i: nat)
    requires Ascending(paths) && i < |paths|
    ensures paths[i] !in ToSet(paths[..i])
  {
    LessIrreflexive(paths[i]);
  }

  method Enumerate(names: set<string>) returns (list: seq<string>)
    ensures forall i, j :: 0 <= i < j < |list| ==> list[i] != list[j]
    ensures ToSet(list) == names
  {
    list := [];
    var rest := names;
    while rest != {}
      invariant rest <= names && ToSet(list) == names - rest
      invariant forall i, j :: 0 <= i < j < |list| ==> list[i] != list[j]
    {
      var x :| x in rest;
      assert x !in list by { assert x !in ToSet(list); }
      ToSetAppend(list, x);
      list := list + [x];
      rest := rest - {x};
    }
  }

  /**
    A disk.  On a `calm` disk no operation fails for a reason outside the model; otherwise any of them can,
    and then leaves anything behind at the path it works on.

    `base` and `roots` only carry the frame along: what differs from `base` lies in the trees of `roots`.
   */
  class Disk {
    var fs: FS
    var calm: bool

    constructor (fs: FS, calm: bool)
      ensures this.fs == fs && this.calm == calm
    {
      this.fs, this.calm := fs, calm;
    }

    /** Whether an operation fails for a reason outside the model. */
    method Fault() returns (fault: bool)
      ensures calm ==> !fault
    {
      fault := *;
      if calm {
        fault := false;
      }
    }

    method MkdirAll(path: string, mode: nat, ghost base: FS, ghost roots: set<string>) returns (ok: bool)
      requires Kept(base, fs, roots)
      modifies this`fs
      ensures Kept(base, fs, roots)
      ensures ok ==> Passable(old(fs), path) && fs == Made(old(fs), path, mode)
      ensures calm && Passable(old(fs), path) ==> ok
      ensures forall p :: p in old(fs) ==> p in fs && fs[p] == old(fs)[p]
      ensures forall p :: p in fs && p !in old(fs) ==> fs[p].Dir?
      ensures calm ==> forall q {:trigger IsDir(fs, q)} :: IsDir(fs, q) ==> IsDir(old(fs), q) || Under(q, path)
    {
      var before := fs;
      if !Passable(fs, path) {
        return false;
      }
      var fault := Fault();
      if fault {
        var parent: string := *;
        if Passable(fs, parent) {
          fs := Made(fs, parent, mode);
        }
        ok := false;
      } else {
        fs := Made(fs, path, mode);
        ok := true;
      }
      forall p
        ensures KeptAt(before, fs, p)
      {
      }
      KeptTransitive(base, before, fs, roots);
    }

    method WriteFile(path: string, text: string, mode: nat, ghost base: FS, ghost roots: set<string>) returns (ok: bool)
      requires Kept(base, fs, roots) && !Outside(path, roots)
      modifies this`fs
      ensures Kept(base, fs, roots)
      ensures ok ==> Writable(old(fs), path) && fs == Written(old(fs), path, text, mode)
      ensures forall q {:trigger IsDir(fs, q)} :: IsDir(fs, q) ==> IsDir(old(fs), q)
      ensures calm && Writable(old(fs), path) ==> ok
    {
      var before := fs;
      if !Writable(fs, path) {
        return false;
      }
      var fault := Fault();
      if fault {
        if * {
          var torn: string := *;
          fs := Written(fs, path, torn, mode);
        }
        ok := false;
      } else {
        fs := Written(fs, path, text, mode);
        ok := true;
      }
      OnePathChanged(base, before, fs, path, roots);
    }

    /** os.Rename of a regular file. */
    method Rename(source: string, target: string, ghost base: FS, ghost roots: set<string>) returns (ok: bool)
      requires Kept(base, fs, roots) && !Outside(source, roots) && !Outside(target, roots) && source != target
      modifies this`fs
      ensures Kept(base, fs, roots)
      ensures ok ==> IsFile(old(fs), source) && Writable(old(fs), target)
      ensures ok ==> fs == (old(fs) - {source})[target := old(fs)[source]]
      ensures !ok ==> fs == old(fs)
      ensures calm && IsFile(old(fs), source) && Writable(old(fs), target) ==> ok
    {
      var fault := Fault();
      if fault || !IsFile(fs, source) || !Writable(fs, target) {
        return false;
      }
      ghost var before := fs;
      var node := fs[source];
      WithoutFileIsTree(fs, source);
      fs := fs - {source};
      OnePathChanged(base, before, fs, source, roots);
      ghost var mid := fs;
      FileIsTree(fs, target, node);
      fs := fs[target := node];
      OnePathChanged(base, mid, fs, target, roots);
      ok := true;
    }

    /** copyFile; copying a file onto itself truncates it. */
    method CopyFile(source: string, target: string, ghost base: FS, ghost roots: set<string>) returns (ok: bool)
      requires Kept(base, fs, roots) && !Outside(target, roots)
      modifies this`fs
      ensures Kept(base, fs, roots)
      ensures ok ==> IsFile(old(fs), source) && Writable(old(fs), target)
      ensures ok ==> IsFile(fs, target) && fs == old(fs)[target := fs[target]]
      ensures ok && source != target ==> fs[target].content == old(fs)[source].content
      ensures forall q {:trigger IsDir(fs, q)} :: IsDir(fs, q) ==> IsDir(old(fs), q)
      ensures calm && IsFile(old(fs), source) && Writable(old(fs), target) ==> ok
    {
      if !IsFile(fs, source) {
        return false;
      }
      var data := if source == target then "" else fs[source].content;
      ok := WriteFile(target, data, fs[source].mode, base, roots);
    }

    method RemoveAll(root: string, ghost base: FS, ghost roots: set<string>) returns (ok: bool)
      requires Kept(base, fs, roots) && !Outside(root, roots)
      modifies this`fs
      ensures Kept(base, fs, roots)
      ensures ok ==> NoFileAbove(old(fs), root) && fs == Removed(old(fs), root)
      ensures calm && NoFileAbove(old(fs), root) ==> ok
      ensures calm ==> Fewer(old(fs), fs)
    {
      var before := fs;
      if !NoFileAbove(fs, root) {
        return false;
      }
      var fault := Fault();
      if fault {
        var left: FS := *;
        if IsTree(Replaced(fs, root, left)) {
          fs := Replaced(fs, root, left);
          ReplacedKept(before, root, left, fs);
        }
        ok := false;
      } else {
        fs := Removed(fs, root);
        ok := true;
      }
      KeptWider(before, fs, root, roots);
      KeptTransitive(base, before, fs, roots);
    }

    /** removeRecoveryTree: makes the tree writable and removes it.  A blank path is left alone. */
    method RemoveRecoveryTree(root: string, ghost base: FS, ghost roots: set<string>) returns (ok: bool)
      requires Kept(base, fs, roots) && (!Blank(root) ==> !Outside(root, roots))
      modifies this`fs
      ensures Kept(base, fs, roots)
      ensures Blank(root) ==> fs == old(fs)
      ensures ok && !Blank(root) ==> NoFileAbove(old(fs), root) && fs == Removed(old(fs), root)
      ensures calm && (Blank(root) || NoFileAbove(old(fs), root)) ==> ok
      ensures calm && !Blank(root) ==> fs == Removed(old(fs), root)
    {
      if Blank(root) {
        return true;
      }
      if root !in fs {
        NothingBelow(fs, root);
        return NoFileAbove(fs, root);
      }
      PresentIsClear(fs, root);
      ok := RemoveAll(root, base, roots);
    }

    /**
      os.ReadDir, and of its answer the directories.  A directory that is not there is listed as empty: every caller
      treats the two alike.
     */
    method ReadDir(root: string) returns (names: Option<seq<string>>)
      ensures names.Some? ==> Passable(fs, root) && names.value == SortedNames(DirNames(fs, root))
      ensures calm && Passable(fs, root) ==> names.Some?
    {
      var fault := Fault();
      if fault || !Passable(fs, root) {
        return None;
      }
      var list := Enumerate(DirNames(fs, root));
      list := SortStrings(list);
      names := Some(list);
    }

    /** What filepath.Walk reports below a directory, in some order. */
    method Walk(root: string) returns (walk: seq<TreeDigest.Visit>)
      ensures TreeDigest.OnceEach(walk)
      ensures TreeDigest.TreeOf(walk) == Files(fs, root)
    {
      var paths := Enumerate(set p | p in fs && Below(root, p));
      forall p
        ensures p in paths <==> p in fs && Below(root, p)
      {
        assert p in paths <==> p in ToSet(paths);
      }
      walk := [];
      for i := 0 to |paths|
        invariant |walk| == i
        invariant forall j :: 0 <= j < i ==>
          paths[j] in fs && Below(root, paths[j]) && walk[j] == VisitOf(fs, root, paths[j])
      {
        assert paths[i] in paths;
        walk := walk + [VisitOf(fs, root, paths[i])];
      }
      forall j, k | 0 <= j < k < |walk|
        ensures walk[j].rel != walk[k].rel
      {
        if walk[j].rel == walk[k].rel {
          RelInjective(root, paths[j], paths[k]);
        }
      }
      WalkOf(fs, root, paths, walk);
    }

    /** directorySHA256; a regular file is walked as a tree of one file. */
    method DirectorySHA256(sha: Sha, root: string) returns (digest: Option<string>)
      ensures digest.Some? ==> (IsDir(fs, root) || IsFile(fs, root)) && !Blank(digest.value)
      ensures digest.Some? && !IsFile(fs, root) ==> digest == DigestAt(sha, fs, root)
      ensures digest.Some? && IsFile(fs, root) ==> digest.value == TreeDigest.Digest(sha, Alone(root, fs[root].content))
      ensures calm && (IsDir(fs, root) || IsFile(fs, root)) ==> digest.Some?
    {
      var fault := Fault();
      if root !in fs || fault {
        return None;
      }
      var walk;
      if fs[root].Dir? {
        walk := Walk(root);
      } else {
        walk := if TreeDigest.Base(root) == TreeDigest.METADATA then []
                else [TreeDigest.Visit(".", TreeDigest.Regular, fs[root].content)];
        assert TreeDigest.TreeOf(walk) == Alone(root, fs[root].content);
      }
      var sum := TreeDigest.DirectorySHA256(sha, walk);
      SumIsNotBlank(sha, TreeDigest.HexStream(sha, TreeDigest.Visible(TreeDigest.TreeOf(walk))));
      digest := Some(sum);
    }

    /** copyDirectory into a place where nothing is: the copy has the same files. */
    method CopyDirectory(source: string, destination: string, ghost base: FS, ghost roots: set<string>)
        returns (ok: bool)
      requires Kept(base, fs, roots) && !Outside(destination, roots)
      requires IsDir(fs, source) && !Exists(fs, destination) && Disjoint(source, destination)
      modifies this`fs
      ensures Kept(base, fs, roots)
      ensures ok ==> IsDir(fs, destination) && Files(fs, destination) == Files(old(fs), source)
      ensures ok ==> forall n :: IsDir(fs, Join(destination, n)) <==> IsDir(old(fs), Join(source, n))
      ensures ok ==> NoFileAbove(old(fs), destination)
      ensures calm && NoFileAbove(old(fs), destination) ==> ok
      ensures calm ==> DirsNear(old(fs), fs, destination)
    {
      ghost var before := fs;
      NoNewDirs(fs, destination);
      var paths := WalkOrder(source);
      ghost var done: set<string> := {};
      NothingCopied(fs, source, destination);
      for i := 0 to |paths|
        invariant Kept(base, fs, roots)
        invariant Extends(before, fs)
        invariant done == ToSet(paths[..i])
        invariant NoFileAbove(before, destination) ==> NoFileAbove(fs, destination)
        invariant CopiedSoFar(before, fs, source, destination, done)
        invariant calm ==> DirsNear(before, fs, destination)
      {
        ghost var mid := fs;
        ok := CopyPath(source, destination, paths, i, before, base, roots);
        if calm {
          DirsNearTransitive(before, mid, fs, destination);
        }
        if !ok {
          return;
        }
        done := done + {paths[i]};
        assert paths[..i + 1] == paths[..i] + [paths[i]];
      }
      assert paths[..|paths|] == paths;
      CopiedFiles(before, fs, source, destination, done);
      forall n
        ensures IsDir(fs, Join(destination, n)) <==> IsDir(before, Join(source, n))
      {
        CopiedDirectory(before, fs, source, destination, done, n);
      }
      assert CopiedAt(before, fs, source, destination, done, "");
      assert destination + "" == destination && source + "" == source;
      PresentIsClear(fs, destination);
      assert NoFileAbove(before, destination) by {
        assert forall k :: 0 <= k < |destination| && IsFile(before, destination[..k]) ==> IsFile(fs, destination[..k]);
      }
      ok := true;
    }

    /** The paths of a tree as filepath.Walk visits them. */
    method WalkOrder(source: string) returns (paths: seq<string>)
      ensures Ascending(paths) && forall p :: p in paths <==> p in fs && Under(source, p)
    {
      var names := set p | p in fs && Under(source, p);
      paths := Enumerate(names);
      paths := SortStrings(paths);
      forall p
        ensures p in paths <==> p in fs && Under(source, p)
      {
        assert p in paths <==> p in ToSet(paths);
      }
    }

    /** One step of the walk of copyDirectory. */
    method CopyPath(source: string, destination: string, paths: seq<string>, i: nat, ghost before: FS, ghost base: FS,
                    ghost roots: set<string>) returns (ok: bool)
      requires Kept(base, fs, roots) && !Outside(destination, roots)
      requires IsDir(before, source) && Disjoint(source, destination) && Extends(before, fs)
      requires Ascending(paths) && (forall p :: p in paths <==> p in before && Under(source, p)) && i < |paths|
      requires CopiedSoFar(before, fs, source, destination, ToSet(paths[..i]))
      modifies this`fs
      ensures Kept(base, fs, roots)
      ensures ok ==> Extends(before, fs) && CopiedSoFar(before, fs, source, destination, ToSet(paths[..i]) + {paths[i]})
      ensures ok && NoFileAbove(old(fs), destination) ==> NoFileAbove(fs, destination)
      ensures calm && NoFileAbove(old(fs), destination) ==> ok
      ensures calm ==> DirsNear(old(fs), fs, destination)
    {
      ghost var mid := fs;
      var path := paths[i];
      assert path in paths;
      var tail := path[|source|..];
      assert path == source + tail && Tail(tail);
      TargetIsOutside(destination, tail, roots);
      NotYet(paths, i);
      assert CopiedAt(before, fs, source, destination, ToSet(paths[..i]), tail);
      if NoFileAbove(fs, destination) {
        TargetIsClear(before, fs, source, destination, paths, i, tail);
      }
      if fs[path].Dir? {
        ok := MkdirAll(destination + tail, PRIVATE_DIR, base, roots);
      } else {
        ok := CopyFile(path, destination + tail, base, roots);
      }
      if calm {
        TailIsUnder(destination, tail);
        DirsNearInner(mid, fs, destination, destination + tail);
      }
      if !ok {
        return;
      }
      forall q | Below(q, source + tail) && Under(source, q)
        ensures q in ToSet(paths[..i])
      {
        ParentsFirst(before, source, paths, i, q);
      }
      CopyStep(before, mid, fs, source, destination, ToSet(paths[..i]), tail);
      if NoFileAbove(mid, destination) {
        StillClear(mid, fs, destination, tail);
      }
    }

    /** makeReadOnlyTree: children before their directories. */
    method MakeReadOnlyTree(root: string, ghost base: FS, ghost roots: set<string>) returns (ok: bool)
      requires Kept(base, fs, roots) && !Outside(root, roots)
      modifies this`fs
      ensures Kept(base, fs, roots)
      ensures ok ==> OnlyModesDiffer(old(fs), fs, root) && SealedTree(fs, root)
      ensures calm ==> ok
    {
      ghost var before := fs;
      var paths := Enumerate(set p | p in fs && Under(root, p));
      forall p
        ensures p in paths <==> p in fs && Under(root, p)
      {
        assert p in paths <==> p in ToSet(paths);
      }
      for i := |paths| downto 0
        invariant Kept(base, fs, roots)
        invariant OnlyModesDiffer(before, fs, root)
        invariant forall j :: i <= j < |paths| ==> paths[j] in fs && Sealed(fs[paths[j]])
      {
        var fault := Fault();
        if fault {
          return false;
        }
        var p := paths[i];
        assert p in paths && SameContent(before, fs, p);
        ghost var mid := fs;
        SameKindIsTree(fs, p, WithMode(fs[p], SEALED_FILE, SEALED_DIR));
        fs := fs[p := WithMode(fs[p], SEALED_FILE, SEALED_DIR)];
        ChmodStep(before, mid, fs, root, p);
        PathIsOutside(root, p, roots);
        OnePathChanged(base, mid, fs, p, roots);
      }
      ok := true;
    }
  }
}
