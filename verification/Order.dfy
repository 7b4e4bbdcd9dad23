/** Byte-wise string order and sorted lists of names, as Go's sort.Strings orders them. */
module Order {

  predicate Less(a: string, b: string) {
    if b == [] then false
    else if a == [] then true
    else a[0] < b[0] || (a[0] == b[0] && Less(a[1..], b[1..]))
  }

  lemma {:induction false} LessTotal(a: string, b: string)
    ensures a == b || Less(a, b) || Less(b, a)
  {
    if a != [] && b != [] && a[0] == b[0] {
      LessTotal(a[1..], b[1..]);
      assert a == [a[0]] + a[1..] && b == [b[0]] + b[1..];
    }
  }

  lemma {:induction false} LessIrreflexive(a: string)
    ensures !Less(a, a)
  {
    if a != [] {
      LessIrreflexive(a[1..]);
    }
  }

  lemma {:induction false} LessTransitive(a: string, b: string, c: string)
    requires Less(a, b) && Less(b, c)
    ensures Less(a, c)
  {
    if a != [] && a[0] == b[0] && b[0] == c[0] {
      LessTransitive(a[1..], b[1..], c[1..]);
    }
  }

  /** Strictly ascending, hence without duplicates. */
  predicate Ascending(s: seq<string>) {
    forall i, j :: 0 <= i < j < |s| ==> Less(s[i], s[j])
  }

  function ToSet(s: seq<string>): set<string> {
    set x | x in s
  }

  lemma {:induction false} DistinctSize(s: seq<string>)
    requires forall i, j :: 0 <= i < j < |s| ==> s[i] != s[j]
    ensures |ToSet(s)| == |s|
  {
    if s != [] {
      var n := |s| - 1;
      DistinctSize(s[..n]);
      assert ToSet(s) == ToSet(s[..n]) + {s[n]};
    }
  }

  lemma AscendingSize(s: seq<string>)
    requires Ascending(s)
    ensures |ToSet(s)| == |s|
  {
    forall i, j | 0 <= i < j < |s|
      ensures s[i] != s[j]
    {
      LessIrreflexive(s[i]);
    }
    DistinctSize(s);
  }

  /** An ascending list starts with the least element of its set. */
  lemma AscendingHead(s: seq<string>, x: string)
    requires Ascending(s) && s != [] && x in s
    ensures x == s[0] || Less(s[0], x)
  {
  }

  /** A set has only one ascending list. */
  lemma {:induction false} AscendingUnique(s: seq<string>, t: seq<string>)
    requires Ascending(s) && Ascending(t) && ToSet(s) == ToSet(t)
    ensures s == t
  {
    EmptySet(s);
    EmptySet(t);
    if s != [] {
      assert s[0] in ToSet(t) && t[0] in ToSet(s);
      AscendingHead(s, t[0]);
      AscendingHead(t, s[0]);
      if s[0] != t[0] {
        LessTransitive(s[0], t[0], s[0]);
        LessIrreflexive(s[0]);
      }
      TailSet(s);
      TailSet(t);
      AscendingUnique(s[1..], t[1..]);
      assert s == [s[0]] + s[1..] && t == [t[0]] + t[1..];
    }
  }

  lemma EmptySet(s: seq<string>)
    ensures s == [] <==> ToSet(s) == {}
  {
    if s != [] {
      assert s[0] in ToSet(s);
    }
  }

  lemma TailSet(s: seq<string>)
    requires Ascending(s) && s != []
    ensures Ascending(s[1..]) && ToSet(s[1..]) == ToSet(s) - {s[0]}
  {
    LessIrreflexive(s[0]);
    assert s == [s[0]] + s[1..];
    forall x | x in s[1..]
      ensures x != s[0]
    {
      var i :| 0 <= i < |s[1..]| && s[1..][i] == x;
      assert s[i + 1] == x && Less(s[0], s[i + 1]);
    }
  }

  function Insert(x: string, s: seq<string>): seq<string> {
    if s == [] then [x]
    else if Less(x, s[0]) then [x] + s
    else [s[0]] + Insert(x, s[1..])
  }

  lemma {:induction false} InsertAscending(x: string, s: seq<string>)
    requires Ascending(s) && x !in s
    ensures Ascending(Insert(x, s)) && ToSet(Insert(x, s)) == ToSet(s) + {x}
  {
    if s == [] {
    } else if Less(x, s[0]) {
      var r := [x] + s;
      forall i, j | 0 <= i < j < |r|
        ensures Less(r[i], r[j])
      {
        if i == 0 && j > 1 {
          LessTransitive(x, s[0], s[j - 1]);
        }
      }
    } else {
      TailSet(s);
      InsertAscending(x, s[1..]);
      LessTotal(x, s[0]);
      var rest := Insert(x, s[1..]);
      forall i | 0 <= i < |rest|
        ensures Less(s[0], rest[i])
      {
        assert rest[i] in ToSet(rest);
        if rest[i] != x {
          assert rest[i] in ToSet(s[1..]) && rest[i] in ToSet(s);
          AscendingHead(s, rest[i]);
        }
      }
      assert ToSet([s[0]] + rest) == {s[0]} + ToSet(rest);
    }
  }

  /** The ascending list of a set. */
  ghost function SortedNames(names: set<string>): (s: seq<string>)
    ensures Ascending(s) && ToSet(s) == names
  {
    if names == {} then []
    else
      var x :| x in names;
      var rest := SortedNames(names - {x});
      assert x !in rest by { assert x !in ToSet(rest); }
      InsertAscending(x, rest);
      Insert(x, rest)
  }

  /** sort.Strings on names that are all different. */
  method SortStrings(names: seq<string>) returns (sorted: seq<string>)
    requires forall i, j :: 0 <= i < j < |names| ==> names[i] != names[j]
    ensures sorted == SortedNames(ToSet(names))
  {
    sorted := [];
    for i := 0 to |names|
      invariant Ascending(sorted) && ToSet(sorted) == ToSet(names[..i])
    {
      assert names[..i + 1] == names[..i] + [names[i]];
      assert names[i] !in sorted by { assert names[i] !in ToSet(names[..i]); }
      InsertAscending(names[i], sorted);
      sorted := Insert(names[i], sorted);
      assert ToSet(names[..i + 1]) == ToSet(names[..i]) + {names[i]};
    }
    assert names[..|names|] == names;
    AscendingUnique(sorted, SortedNames(ToSet(names)));
  }
}
