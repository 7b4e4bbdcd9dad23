/**
  The digests of a directory tree: directorySHA256 (backend/backup/offsite.go:351-400) and
  verifyDirectoryIntegrity (backend/backup/office_mirror_verify.go:23-115).

  A tree maps the relative path of each regular file to its content.
 */
module TreeDigest {
  import opened Text
  import opened Order

  type Tree = map<string, string>

  const METADATA := "OFFSITE-MANIFEST.json"

  /** The last component of a relative path. */
  function Base(rel: string): string {
    LastOf(Split(rel, '/'))
  }

  /** directorySHA256 leaves out every file named like the offsite metadata, in any directory. */
  function Visible(t: Tree): Tree {
    map rel | rel in t && Base(rel) != METADATA :: t[rel]
  }

  /** The name of the offsite metadata, alone or after a slash, is what makes a file invisible. */
  predicate NamedMetadata(rel: string) {
    rel == "OFFSITE-MANIFEST.json" || (|rel| >= 22 && rel[|rel| - 22..] == "/OFFSITE-MANIFEST.json")
  }

  /** The digest leaves out exactly the files with that name, in any directory. */
  lemma VisibleIff(t: Tree, rel: string)
    ensures rel in Visible(t) <==> rel in t && !NamedMetadata(rel)
    ensures rel in Visible(t) ==> Visible(t)[rel] == t[rel]
  {
    BaseIs(rel);
  }

  lemma BaseIs(rel: string)
    ensures Base(rel) == METADATA <==> NamedMetadata(rel)
  {
    if '/' in rel {
      var k := LastSlash(rel);
      var before, name := rel[..k], rel[k + 1..];
      assert rel == before + ['/'] + name;
      SplitAppend(before, '/', name);
      SplitPlain(name, '/');
      hide Split;
      assert Base(rel) == name;
      TailIsName(rel, k);
    } else {
      SplitPlain(rel, '/');
      NoSlashNoTail(rel);
    }
  }

  lemma LastSlash(s: string) returns (k: nat)
    requires '/' in s
    ensures k < |s| && s[k] == '/' && '/' !in s[k + 1..]
  {
    k := |s| - 1;
    while s[k] != '/'
      invariant k < |s| && '/' !in s[k + 1..] && '/' in s[..k + 1]
      decreases k
    {
      k := k - 1;
    }
  }

  lemma TailIsName(rel: string, k: nat)
    requires k < |rel| && rel[k] == '/' && '/' !in rel[k + 1..]
    ensures rel[k + 1..] == METADATA <==> NamedMetadata(rel)
  {
    var tail := "/OFFSITE-MANIFEST.json";
    assert |METADATA| == 21 && tail == "/" + METADATA;
    assert '/' !in METADATA && rel != METADATA;
    TailIs(rel, k, METADATA);
    assert NamedMetadata(rel) <==> |rel| >= 22 && rel[|rel| - 22..] == tail;
  }

  lemma TailIs(rel: string, k: nat, name: string)
    requires k < |rel| && rel[k] == '/' && '/' !in rel[k + 1..] && '/' !in name
    ensures rel[k + 1..] == name <==> |rel| > |name| && rel[|rel| - |name| - 1..] == "/" + name
  {
    var n := |rel| - |name| - 1;
    if 0 <= n && rel[n..] == "/" + name {
      assert rel[n] == rel[n..][0] && rel[n + 1..] == rel[n..][1..] == name;
      SameSlash(rel, k, n);
    }
    if rel[k + 1..] == name {
      assert rel[k..] == [rel[k]] + rel[k + 1..];
    }
  }

  /** There is only one last slash. */
  lemma SameSlash(s: string, k: nat, n: nat)
    requires k < |s| && s[k] == '/' && '/' !in s[k + 1..]
    requires n < |s| && s[n] == '/' && '/' !in s[n + 1..]
    ensures k == n
  {
    assert forall i :: k < i < |s| ==> s[i] == s[k + 1..][i - k - 1];
    assert forall i :: n < i < |s| ==> s[i] == s[n + 1..][i - n - 1];
  }

  lemma NoSlashNoTail(rel: string)
    requires '/' !in rel
    ensures NamedMetadata(rel) <==> rel == METADATA
  {
    if |rel| >= 22 {
      assert rel[|rel| - 22..][0] == rel[|rel| - 22];
    }
  }

  // ---------------------------------------------------------------- the hashed stream

  /** One record per name: the name, a separator, the code of its content, the separator again. */
  function Stream(sep: char, names: seq<string>, codes: map<string, string>): string
    requires forall i :: 0 <= i < |names| ==> names[i] in codes
  {
    if names == [] then []
    else Record(sep, names[0], codes[names[0]]) + Stream(sep, names[1..], codes)
  }

  function Record(sep: char, name: string, code: string): string {
    name + [sep] + code + [sep]
  }

  function HexCodes(sha: Sha, t: Tree): map<string, string> {
    map rel | rel in t :: Sum(sha, t[rel])
  }

  function RawCodes(sha: Sha, t: Tree): map<string, string> {
    map rel | rel in t :: sha(t[rel])
  }

  lemma NamesOf(codes: map<string, string>)
    ensures var names := SortedNames(codes.Keys);
            && (forall i :: 0 <= i < |names| ==> names[i] in codes)
            && (forall n :: n in codes ==> n in names)
  {
    var names := SortedNames(codes.Keys);
    forall i | 0 <= i < |names|
      ensures names[i] in codes
    {
      assert names[i] in ToSet(names);
    }
    forall n | n in codes
      ensures n in names
    {
      assert n in ToSet(names);
    }
  }

  /** The records of all names, in ascending order. */
  ghost function CodeStream(sep: char, codes: map<string, string>): string {
    NamesOf(codes);
    Stream(sep, SortedNames(codes.Keys), codes)
  }

  ghost function HexStream(sha: Sha, t: Tree): string {
    CodeStream('\n', HexCodes(sha, t))
  }

  ghost function RawStream(sha: Sha, t: Tree): string {
    CodeStream('\0', RawCodes(sha, t))
  }

  /** directorySHA256 of a tree. */
  ghost function Digest(sha: Sha, t: Tree): string {
    Sum(sha, HexStream(sha, Visible(t)))
  }

  /** verifyDirectoryIntegrity of a tree. */
  ghost function Integrity(sha: Sha, t: Tree): string {
    Sum(sha, RawStream(sha, t))
  }

  // ---------------------------------------------------------------- the walks

  datatype Kind = Directory | Regular | Other

  datatype Visit = Visit(rel: string, kind: Kind, content: string)

  /** A walk reports every path once. */
  predicate OnceEach(walk: seq<Visit>) {
    forall i, j :: 0 <= i < j < |walk| ==> walk[i].rel != walk[j].rel
  }

  /** The tree a walk reports, whatever its order. */
  function TreeOf(walk: seq<Visit>): Tree
    requires OnceEach(walk)
  {
    map i | 0 <= i < |walk| && walk[i].kind.Regular? :: walk[i].rel := walk[i].content
  }

  lemma StreamStep(sep: char, names: seq<string>, i: nat, codes: map<string, string>)
    requires i < |names| && forall k :: 0 <= k < |names| ==> names[k] in codes
    ensures Stream(sep, names[..i + 1], codes)
         == Stream(sep, names[..i], codes) + Record(sep, names[i], codes[names[i]])
  {
    StreamConcat(sep, names[..i], [names[i]], codes);
    assert names[..i + 1] == names[..i] + [names[i]];
    assert [names[i]][1..] == [];
    assert Stream(sep, [names[i]], codes) == Record(sep, names[i], codes[names[i]]);
  }

  lemma {:induction false} StreamConcat(sep: char, a: seq<string>, b: seq<string>, codes: map<string, string>)
    requires forall k :: 0 <= k < |a| ==> a[k] in codes
    requires forall k :: 0 <= k < |b| ==> b[k] in codes
    ensures Stream(sep, a + b, codes) == Stream(sep, a, codes) + Stream(sep, b, codes)
  {
    if a == [] {
      assert a + b == b;
    } else {
      assert (a + b)[1..] == a[1..] + b;
      StreamConcat(sep, a[1..], b, codes);
    }
  }

  /** The names a walk collects, and that they are the keys of the visible tree. */
  method CollectFiles(walk: seq<Visit>, all: bool) returns (files: seq<string>)
    requires OnceEach(walk)
    ensures forall i, j :: 0 <= i < j < |files| ==> files[i] != files[j]
    ensures ToSet(files) == (if all then TreeOf(walk) else Visible(TreeOf(walk))).Keys
  {
    files := [];
    for i := 0 to |walk|
      invariant forall j, k :: 0 <= j < k < |files| ==> files[j] != files[k]
      invariant forall f :: f in files <==>
                  exists k :: 0 <= k < i && walk[k].rel == f && walk[k].kind.Regular? && (all || Base(f) != METADATA)
    {
      if walk[i].kind.Directory? {
        continue;
      }
      if !all && Base(walk[i].rel) == METADATA {
        continue;
      }
      if walk[i].kind.Regular? {
        files := files + [walk[i].rel];
      }
    }
  }

  lemma FilesHaveCodes(files: seq<string>, keys: set<string>)
    requires ToSet(files) == keys
    ensures forall k :: 0 <= k < |files| ==> files[k] in keys
  {
    forall k | 0 <= k < |files|
      ensures files[k] in keys
    {
      assert files[k] in ToSet(files);
    }
  }

  /** What the hash is fed for these files, with the hexadecimal hash of each content. */
  method FeedHex(sha: Sha, files: seq<string>, tree: Tree) returns (hashed: string)
    requires forall k :: 0 <= k < |files| ==> files[k] in tree
    ensures hashed == Stream('\n', files, HexCodes(sha, tree))
  {
    hashed := "";
    ghost var codes := HexCodes(sha, tree);
    for i := 0 to |files|
      invariant hashed == Stream('\n', files[..i], codes)
    {
      StreamStep('\n', files, i, codes);
      hashed := hashed + Record('\n', files[i], Sum(sha, tree[files[i]]));
    }
    assert files[..|files|] == files;
  }

  method FeedRaw(sha: Sha, items: seq<string>, tree: Tree) returns (hashed: string)
    requires forall k :: 0 <= k < |items| ==> items[k] in tree
    ensures hashed == Stream('\0', items, RawCodes(sha, tree))
  {
    hashed := "";
    ghost var codes := RawCodes(sha, tree);
    for i := 0 to |items|
      invariant hashed == Stream('\0', items[..i], codes)
    {
      StreamStep('\0', items, i, codes);
      hashed := hashed + Record('\0', items[i], sha(tree[items[i]]));
    }
    assert items[..|items|] == items;
  }

  /** The digest depends on the tree alone, not on the order of the walk. */
  method DirectorySHA256(sha: Sha, walk: seq<Visit>) returns (digest: string)
    requires OnceEach(walk)
    ensures digest == Digest(sha, TreeOf(walk))
  {
    var tree := Visible(TreeOf(walk));
    var files := CollectFiles(walk, false);
    files := SortStrings(files);
    FilesHaveCodes(files, tree.Keys);
    var hashed := FeedHex(sha, files, tree);
    assert HexCodes(sha, tree).Keys == tree.Keys;
    return Sum(sha, hashed);
  }

  method VerifyDirectoryIntegrity(sha: Sha, walk: seq<Visit>) returns (digest: string)
    requires OnceEach(walk)
    ensures digest == Integrity(sha, TreeOf(walk))
  {
    var tree := TreeOf(walk);
    var items := CollectFiles(walk, true);
    items := SortStrings(items);
    FilesHaveCodes(items, tree.Keys);
    var hashed := FeedRaw(sha, items, tree);
    assert RawCodes(sha, tree).Keys == tree.Keys;
    return Sum(sha, hashed);
  }

  // ---------------------------------------------------------------- reading the stream back

  function IndexOf(s: string, sep: char): nat {
    if s == [] || s[0] == sep then 0 else 1 + IndexOf(s[1..], sep)
  }

  lemma {:induction false} IndexOfFirst(n: string, sep: char, a: string)
    requires sep !in n
    ensures IndexOf(n + [sep] + a, sep) == |n|
  {
    if n != [] {
      assert (n + [sep] + a)[1..] == n[1..] + [sep] + a;
      IndexOfFirst(n[1..], sep, a);
    }
  }

  /** A name without the separator ends where the separator first stands. */
  lemma FirstRecord(sep: char, n: string, a: string, m: string, b: string)
    requires sep !in n && sep !in m
    requires n + [sep] + a == m + [sep] + b
    ensures n == m && a == b
  {
    IndexOfFirst(n, sep, a);
    IndexOfFirst(m, sep, b);
    var s, t := n + [sep] + a, m + [sep] + b;
    assert s[..|n|] == n && t[..|m|] == m;
    assert s[|n| + 1..] == a && t[|m| + 1..] == b;
  }

  predicate CodesOfWidth(codes: map<string, string>, w: nat) {
    forall n :: n in codes ==> |codes[n]| == w
  }

  predicate NamesAvoid(sep: char, names: seq<string>) {
    forall i :: 0 <= i < |names| ==> sep !in names[i]
  }

  lemma SameRecords(sep: char, w: nat, n: string, c: string, a: string, m: string, d: string, b: string)
    requires sep !in n && sep !in m && |c| == |d| == w
    requires Record(sep, n, c) + a == Record(sep, m, d) + b
    ensures n == m && c == d && a == b
  {
    assert Record(sep, n, c) + a == n + [sep] + (c + [sep] + a);
    assert Record(sep, m, d) + b == m + [sep] + (d + [sep] + b);
    FirstRecord(sep, n, c + [sep] + a, m, d + [sep] + b);
    var s, t := c + [sep] + a, d + [sep] + b;
    assert s[..w] == c && t[..w] == d && s[w + 1..] == a && t[w + 1..] == b;
  }

  /** Equal streams list the same names with the same codes. */
  lemma {:induction false} StreamInjective(sep: char, w: nat, names: seq<string>, codes: map<string, string>,
                                           names': seq<string>, codes': map<string, string>)
    requires (forall i :: 0 <= i < |names| ==> names[i] in codes)
    requires (forall i :: 0 <= i < |names'| ==> names'[i] in codes')
    requires CodesOfWidth(codes, w) && CodesOfWidth(codes', w)
    requires NamesAvoid(sep, names) && NamesAvoid(sep, names')
    requires Stream(sep, names, codes) == Stream(sep, names', codes')
    ensures names == names'
    ensures forall i :: 0 <= i < |names| ==> codes[names[i]] == codes'[names[i]]
    decreases |names|
  {
    if names != [] && names' != [] {
      var r, r' := names[1..], names'[1..];
      SameRecords(sep, w, names[0], codes[names[0]], Stream(sep, r, codes), names'[0], codes'[names'[0]],
          Stream(sep, r', codes'));
      StreamInjective(sep, w, r, codes, r', codes');
      assert names == [names[0]] + r && names' == [names'[0]] + r';
    }
  }

  predicate TreeNamesAvoid(sep: char, t: Tree) {
    forall rel :: rel in t ==> sep !in rel
  }

  ghost predicate Hashes(sha: Sha, inputs: set<string>, t: Tree) {
    && CollisionFree(sha, inputs)
    && forall rel :: rel in t ==> t[rel] in inputs
  }

  /** Equal streams: the same names, with the same codes. */
  lemma SameStreams(sep: char, w: nat, codes: map<string, string>, codes': map<string, string>)
    requires CodesOfWidth(codes, w) && CodesOfWidth(codes', w)
    requires TreeNamesAvoid(sep, codes) && TreeNamesAvoid(sep, codes')
    requires CodeStream(sep, codes) == CodeStream(sep, codes')
    ensures codes == codes'
  {
    var names, names' := SortedNames(codes.Keys), SortedNames(codes'.Keys);
    NamesOf(codes);
    NamesOf(codes');
    StreamInjective(sep, w, names, codes, names', codes');
    assert codes.Keys == ToSet(names) == ToSet(names') == codes'.Keys;
    forall rel | rel in codes
      ensures codes[rel] == codes'[rel]
    {
      var i :| 0 <= i < |names| && names[i] == rel;
    }
  }

  lemma SameHexCodesSameTree(sha: Sha, inputs: set<string>, t: Tree, t': Tree)
    requires Hashes(sha, inputs, t) && Hashes(sha, inputs, t')
    requires HexCodes(sha, t) == HexCodes(sha, t')
    ensures t == t'
  {
    assert t.Keys == HexCodes(sha, t).Keys == HexCodes(sha, t').Keys == t'.Keys;
    forall rel | rel in t
      ensures t[rel] == t'[rel]
    {
      assert Sum(sha, t[rel]) == HexCodes(sha, t)[rel] == HexCodes(sha, t')[rel] == Sum(sha, t'[rel]);
      SumInjective(sha, inputs, t[rel], t'[rel]);
    }
  }

  lemma SameRawCodesSameTree(sha: Sha, inputs: set<string>, t: Tree, t': Tree)
    requires Hashes(sha, inputs, t) && Hashes(sha, inputs, t')
    requires RawCodes(sha, t) == RawCodes(sha, t')
    ensures t == t'
  {
    assert t.Keys == RawCodes(sha, t).Keys == RawCodes(sha, t').Keys == t'.Keys;
    forall rel | rel in t
      ensures t[rel] == t'[rel]
    {
      assert sha(t[rel]) == RawCodes(sha, t)[rel] == RawCodes(sha, t')[rel] == sha(t'[rel]);
      assert NoCollision(sha, t[rel], t'[rel]);
    }
  }

  /** Trees with the same directorySHA256 agree on every file but the offsite metadata. */
  lemma DigestDeterminesTree(sha: Sha, inputs: set<string>, t: Tree, t': Tree)
    requires Hashes(sha, inputs, Visible(t)) && Hashes(sha, inputs, Visible(t'))
    requires HexStream(sha, Visible(t)) in inputs && HexStream(sha, Visible(t')) in inputs
    requires TreeNamesAvoid('\n', Visible(t)) && TreeNamesAvoid('\n', Visible(t'))
    ensures Digest(sha, t) == Digest(sha, t') <==> Visible(t) == Visible(t')
  {
    if Digest(sha, t) == Digest(sha, t') {
      SumInjective(sha, inputs, HexStream(sha, Visible(t)), HexStream(sha, Visible(t')));
      SameStreams('\n', 64, HexCodes(sha, Visible(t)), HexCodes(sha, Visible(t')));
      SameHexCodesSameTree(sha, inputs, Visible(t), Visible(t'));
    }
  }

  /** The second digest determines the whole tree, so it is at least as fine as the first. */
  lemma IntegrityDeterminesTree(sha: Sha, inputs: set<string>, t: Tree, t': Tree)
    requires Hashes(sha, inputs, t) && Hashes(sha, inputs, t')
    requires RawStream(sha, t) in inputs && RawStream(sha, t') in inputs
    requires TreeNamesAvoid('\0', t) && TreeNamesAvoid('\0', t')
    ensures Integrity(sha, t) == Integrity(sha, t') <==> t == t'
    ensures Integrity(sha, t) == Integrity(sha, t') ==> Digest(sha, t) == Digest(sha, t')
  {
    if Integrity(sha, t) == Integrity(sha, t') {
      SumInjective(sha, inputs, RawStream(sha, t), RawStream(sha, t'));
      SameStreams('\0', 32, RawCodes(sha, t), RawCodes(sha, t'));
      SameRawCodesSameTree(sha, inputs, t, t');
    }
  }

  lemma VisibleIgnores(t: Tree, rel: string, text: string)
    requires Base(rel) == METADATA
    ensures Visible(t[rel := text]) == Visible(t)
  {
  }

  lemma MetadataBase()
    ensures Base(METADATA) == METADATA
  {
    SplitPlain(METADATA, '/');
  }

  /** Adding or replacing the metadata file does not change the digest. */
  lemma MetadataIsInvisible(sha: Sha, t: Tree, text: string)
    ensures Digest(sha, t[METADATA := text]) == Digest(sha, t)
  {
    MetadataBase();
    VisibleIgnores(t, METADATA, text);
  }

  // ---------------------------------------------------------------- names with line breaks

  lemma CodeStreamOf(sep: char, codes: map<string, string>, names: seq<string>)
    requires Ascending(names) && ToSet(names) == codes.Keys
    requires forall i :: 0 <= i < |names| ==> names[i] in codes
    ensures CodeStream(sep, codes) == Stream(sep, names, codes)
  {
    AscendingUnique(SortedNames(codes.Keys), names);
  }

  lemma OneRecord(sep: char, n: string, codes: map<string, string>)
    requires n in codes
    ensures Stream(sep, [n], codes) == Record(sep, n, codes[n])
  {
    assert [n][1..] == [];
    assert Record(sep, n, codes[n]) + [] == Record(sep, n, codes[n]);
  }

  lemma OneFileStream(sha: Sha, n: string, y: string)
    ensures HexStream(sha, map[n := y]) == Record('\n', n, Sum(sha, y))
  {
    var t := map[n := y];
    CodeStreamOf('\n', HexCodes(sha, t), [n]);
    OneRecord('\n', n, HexCodes(sha, t));
  }

  /** What is hashed for a tree of one visible file: its name, the hexadecimal hash of its content, each on a line. */
  lemma DigestOfOneFile(sha: Sha, n: string, y: string)
    requires !NamedMetadata(n)
    ensures Digest(sha, map[n := y]) == Sum(sha, n + ['\n'] + Sum(sha, y) + ['\n'])
  {
    BaseIs(n);
    OneIsVisible(n, y);
    OneFileStream(sha, n, y);
    hide Digest, Visible, HexStream, Sum, Base;
    DigestIs(sha, map[n := y]);
  }

  lemma DigestIs(sha: Sha, t: Tree)
    ensures Digest(sha, t) == Sum(sha, HexStream(sha, Visible(t)))
  {
  }

  /** The names of a map in the order in which they are hashed. */
  ghost function InOrder(m: map<string, string>): (names: seq<string>)
    ensures |names| == |m.Keys|
    ensures forall i :: 0 <= i < |names| ==> names[i] in m
  {
    var names := SortedNames(m.Keys);
    AscendingSize(names);
    FilesHaveCodes(names, m.Keys);
    names
  }

  ghost function LastName(m: map<string, string>): (n: string)
    requires |m.Keys| >= 2
    ensures n in m
  {
    InOrder(m)[|m.Keys| - 1]
  }

  /** What is hashed before the last record. */
  ghost function AllButLast(codes: map<string, string>): string
    requires |codes.Keys| >= 2
  {
    Stream('\n', InOrder(codes)[..|codes.Keys| - 1], codes)
  }

  lemma LastRecord(codes: map<string, string>)
    requires |codes.Keys| >= 2
    ensures CodeStream('\n', codes) == AllButLast(codes) + Record('\n', LastName(codes), codes[LastName(codes)])
  {
    hide Stream, Record;
    var names, last := InOrder(codes), |codes.Keys| - 1;
    StreamStep('\n', names, last, codes);
    assert names[..last + 1] == names;
  }

  /** One file whose name spells out every record of a tree but the end of the last, with the content of the last. */
  ghost function Lookalike(sha: Sha, t: Tree): Tree
    requires |Visible(t).Keys| >= 2
  {
    var v := Visible(t);
    SameKeys(sha, v);
    map[AllButLast(HexCodes(sha, v)) + LastName(v) := v[LastName(v)]]
  }

  lemma SameKeys(sha: Sha, v: Tree)
    ensures HexCodes(sha, v).Keys == v.Keys
    ensures forall n :: n in v ==> HexCodes(sha, v)[n] == Sum(sha, v[n])
  {
  }

  lemma SameLast(v: map<string, string>, codes: map<string, string>)
    requires v.Keys == codes.Keys && |v.Keys| >= 2
    ensures LastName(v) == LastName(codes)
  {
  }

  lemma LookalikeStream(sha: Sha, t: Tree)
    requires |Visible(t).Keys| >= 2
    ensures HexStream(sha, Lookalike(sha, t)) == HexStream(sha, Visible(t))
  {
    var v, codes := Visible(t), HexCodes(sha, Visible(t));
    assert HexStream(sha, v) == CodeStream('\n', codes);
    hide Visible, AllButLast, LastName, CodeStream, HexStream, HexCodes, Record, Sum;
    SameKeys(sha, v);
    SameLast(v, codes);
    LastRecord(codes);
    OneFileStream(sha, AllButLast(codes) + LastName(v), v[LastName(v)]);
    RecordTail('\n', AllButLast(codes), LastName(v), Sum(sha, v[LastName(v)]));
  }

  lemma RecordTail(sep: char, before: string, name: string, code: string)
    ensures before + Record(sep, name, code) == Record(sep, before + name, code)
  {
  }

  /** A name ends a longer name either with the same base or after something else on the same level. */
  lemma BaseOfTail(before: string, name: string)
    ensures Base(before + name) == Base(name) || Base(before + name) == Base(before) + name
  {
    if '/' in name {
      var k :| 0 <= k < |name| && name[k] == '/';
      var p, q := name[..k], name[k + 1..];
      assert name == p + ['/'] + q;
      assert before + name == (before + p) + ['/'] + q;
      SplitAppend(p, '/', q);
      SplitAppend(before + p, '/', q);
    } else {
      SplitTail(before, name, '/');
    }
  }

  /** A text that ends in a line break has a base that ends in it too. */
  lemma BreakInBase(s: string)
    requires s != [] && s[|s| - 1] == '\n'
    ensures '\n' in Base(s)
  {
    var before := s[..|s| - 1];
    assert s == before + "\n";
    SplitTail(before, "\n", '/');
  }

  lemma {:induction false} StreamEnds(sep: char, names: seq<string>, codes: map<string, string>)
    requires names != [] && forall i :: 0 <= i < |names| ==> names[i] in codes
    ensures var s := Stream(sep, names, codes); s != [] && s[|s| - 1] == sep
  {
    if |names| > 1 {
      StreamEnds(sep, names[1..], codes);
    }
  }

  lemma AllButLastEnds(codes: map<string, string>)
    requires |codes.Keys| >= 2
    ensures '\n' in Base(AllButLast(codes))
  {
    hide Base;
    StreamEnds('\n', InOrder(codes)[..|codes.Keys| - 1], codes);
    BreakInBase(AllButLast(codes));
  }

  lemma VisibleBase(t: Tree, n: string)
    requires n in Visible(t)
    ensures Base(n) != METADATA
  {
    hide Base;
  }

  lemma OneIsVisible(n: string, y: string)
    requires Base(n) != METADATA
    ensures Visible(map[n := y]) == map[n := y]
  {
  }

  lemma LookalikeIsVisible(sha: Sha, t: Tree)
    requires |Visible(t).Keys| >= 2
    ensures Visible(Lookalike(sha, t)) == Lookalike(sha, t)
  {
    hide Visible, Base, AllButLast, LastName, HexCodes;
    var v, codes := Visible(t), HexCodes(sha, Visible(t));
    SameKeys(sha, v);
    AllButLastEnds(codes);
    VisibleBase(t, LastName(v));
    assert '\n' !in METADATA;
    BaseOfTail(AllButLast(codes), LastName(v));
    OneIsVisible(AllButLast(codes) + LastName(v), v[LastName(v)]);
  }

  /**
    Every tree with two or more visible files, an office mirror for one, has the digest of a tree with a single file,
    whatever the hash function.
   */
  lemma HasLookalike(sha: Sha, t: Tree)
    requires |Visible(t).Keys| >= 2
    ensures var s := Lookalike(sha, t);
            && Digest(sha, s) == Digest(sha, t) && HexStream(sha, Visible(s)) == HexStream(sha, Visible(t))
            && Visible(s) == s && |s.Keys| == 1 && Visible(s) != Visible(t)
            && s.Values <= Visible(t).Values
  {
    hide Visible, AllButLast, LastName, HexStream, HexCodes;
    LookalikeIsVisible(sha, t);
    LookalikeStream(sha, t);
  }

  // ---------------------------------------------------------------- counting line breaks

  function Breaks(s: string): nat {
    if s == [] then 0 else (if s[0] == '\n' then 1 else 0) + Breaks(s[1..])
  }

  lemma {:induction false} BreaksAppend(a: string, b: string)
    ensures Breaks(a + b) == Breaks(a) + Breaks(b)
  {
    if a == [] {
      assert a + b == b;
    } else {
      assert (a + b)[1..] == a[1..] + b;
      BreaksAppend(a[1..], b);
    }
  }

  lemma {:induction false} NoBreaks(s: string)
    ensures Breaks(s) == 0 <==> '\n' !in s
  {
    if s != [] {
      NoBreaks(s[1..]);
      assert s == [s[0]] + s[1..];
    }
  }

  lemma RecordBreaks(n: string, c: string)
    ensures Breaks(Record('\n', n, c)) == Breaks(n) + Breaks(c) + 2
  {
    BreaksAppend(n + "\n" + c, "\n");
    BreaksAppend(n + "\n", c);
    BreaksAppend(n, "\n");
    assert Record('\n', n, c) == n + "\n" + c + "\n";
    assert "\n"[1..] == "";
  }

  /** A stream has at least two line breaks for each record. */
  lemma {:induction false} StreamBreaks(names: seq<string>, codes: map<string, string>)
    requires forall i :: 0 <= i < |names| ==> names[i] in codes
    ensures Breaks(Stream('\n', names, codes)) >= 2 * |names|
  {
    if names != [] {
      RecordBreaks(names[0], codes[names[0]]);
      StreamBreaks(names[1..], codes);
      BreaksAppend(Record('\n', names[0], codes[names[0]]), Stream('\n', names[1..], codes));
    }
  }

  predicate PlainCodes(codes: map<string, string>) {
    forall n :: n in codes ==> |codes[n]| == 64 && '\n' !in codes[n]
  }

  /** A stream of at most one record with a plain name can be read in one way only. */
  lemma ShortStream(names: seq<string>, codes: map<string, string>, names': seq<string>, codes': map<string, string>)
    requires (forall i :: 0 <= i < |names| ==> names[i] in codes)
    requires (forall i :: 0 <= i < |names'| ==> names'[i] in codes')
    requires |names| <= 1 && NamesAvoid('\n', names) && PlainCodes(codes) && PlainCodes(codes')
    requires Stream('\n', names, codes) == Stream('\n', names', codes')
    ensures NamesAvoid('\n', names')
  {
    StreamBreaks(names', codes');
    if names != [] {
      assert names == [names[0]];
      OneRecord('\n', names[0], codes);
      RecordBreaks(names[0], codes[names[0]]);
      NoBreaks(names[0]);
      NoBreaks(codes[names[0]]);
    }
    if names' != [] {
      assert |names'| == 1 && names' == [names'[0]];
      OneRecord('\n', names'[0], codes');
      RecordBreaks(names'[0], codes'[names'[0]]);
      NoBreaks(names'[0]);
    }
  }

  lemma HexCodesArePlain(sha: Sha, t: Tree)
    ensures PlainCodes(HexCodes(sha, t)) && CodesOfWidth(HexCodes(sha, t), 64)
  {
  }

  /** At most one visible file with a plain name: nothing else has its stream. */
  lemma ShortTreeIsRead(sha: Sha, inputs: set<string>, t: Tree, s: Tree)
    requires Hashes(sha, inputs, t) && Hashes(sha, inputs, s) && HexStream(sha, t) == HexStream(sha, s)
    requires |t.Keys| <= 1 && TreeNamesAvoid('\n', t)
    ensures s == t
  {
    var codes, codes' := HexCodes(sha, t), HexCodes(sha, s);
    HexCodesArePlain(sha, t);
    HexCodesArePlain(sha, s);
    SameKeys(sha, t);
    assert HexStream(sha, t) == CodeStream('\n', codes) && HexStream(sha, s) == CodeStream('\n', codes');
    assert TreeNamesAvoid('\n', codes);
    hide HexCodes, HexStream, Hashes, CodeStream, PlainCodes, CodesOfWidth, TreeNamesAvoid;
    ShortCodes(codes, codes');
    SameStreams('\n', 64, codes, codes');
    SameHexCodesSameTree(sha, inputs, t, s);
  }

  lemma ShortCodes(codes: map<string, string>, codes': map<string, string>)
    requires |codes.Keys| <= 1 && TreeNamesAvoid('\n', codes) && PlainCodes(codes) && PlainCodes(codes')
    requires CodeStream('\n', codes) == CodeStream('\n', codes')
    ensures TreeNamesAvoid('\n', codes')
  {
    var names, names' := SortedNames(codes.Keys), SortedNames(codes'.Keys);
    NamesOf(codes);
    NamesOf(codes');
    AscendingSize(names);
    hide Stream, PlainCodes;
    ShortStream(names, codes, names', codes');
    AllNamesAvoid(names', codes');
  }

  lemma AllNamesAvoid(names: seq<string>, codes: map<string, string>)
    requires NamesAvoid('\n', names) && forall n :: n in codes ==> n in names
    ensures TreeNamesAvoid('\n', codes)
  {
  }

  /** Everything that is hashed for this tree lies in a set without collisions. */
  ghost predicate Hashed(sha: Sha, inputs: set<string>, t: Tree) {
    Hashes(sha, inputs, Visible(t)) && HexStream(sha, Visible(t)) in inputs
  }

  /** No tree with other visible files has this tree's digest. */
  ghost predicate Identified(sha: Sha, inputs: set<string>, t: Tree) {
    forall s {:trigger Digest(sha, s)} ::
      Hashed(sha, inputs, s) && Digest(sha, s) == Digest(sha, t) ==> Visible(s) == Visible(t)
  }

  /** directorySHA256 identifies a tree with plain names exactly when it has at most one visible file. */
  lemma IdentifiedIffOneFile(sha: Sha, inputs: set<string>, t: Tree)
    requires Hashed(sha, inputs, t) && TreeNamesAvoid('\n', Visible(t))
    ensures Identified(sha, inputs, t) <==> |Visible(t).Keys| <= 1
  {
    hide Visible, HexStream, Hashes, Lookalike, TreeNamesAvoid;
    if |Visible(t).Keys| <= 1 {
      forall s | Hashed(sha, inputs, s) && Digest(sha, s) == Digest(sha, t)
        ensures Visible(s) == Visible(t)
      {
        HashedFree(sha, inputs, t);
        SumInjective(sha, inputs, HexStream(sha, Visible(s)), HexStream(sha, Visible(t)));
        ShortTreeIsRead(sha, inputs, Visible(t), Visible(s));
      }
    } else {
      HasLookalike(sha, t);
      var s := Lookalike(sha, t);
      SameHashes(sha, inputs, Visible(t), s);
      assert Hashed(sha, inputs, s);
    }
  }

  lemma HashedFree(sha: Sha, inputs: set<string>, t: Tree)
    requires Hashed(sha, inputs, t)
    ensures CollisionFree(sha, inputs)
  {
  }

  lemma SameHashes(sha: Sha, inputs: set<string>, t: Tree, s: Tree)
    requires Hashes(sha, inputs, t) && s.Values <= t.Values
    ensures Hashes(sha, inputs, s)
  {
    forall rel | rel in s
      ensures s[rel] in inputs
    {
      assert s[rel] in t.Values;
      var r :| r in t && t[r] == s[rel];
    }
  }

  lemma NoSlash(name: string)
    requires '/' !in name && |name| != |METADATA|
    ensures Base(name) != METADATA
  {
    SplitPlain(name, '/');
  }
}
