/** The parts of Go's strings, hex and sha256 packages the program relies on.  A string is a sequence of bytes. */
module Text {

  // ---------------------------------------------------------------- white space

  predicate IsSpace(c: char) {
    c == ' ' || c == '\t' || c == '\n' || c == '\r' || c as int == 11 || c as int == 12
  }

  function TrimLeft(s: string): string {
    if s != [] && IsSpace(s[0]) then TrimLeft(s[1..]) else s
  }

  function TrimRight(s: string): string {
    if s != [] && IsSpace(s[|s| - 1]) then TrimRight(s[..|s| - 1]) else s
  }

  function TrimSpace(s: string): string {
    TrimRight(TrimLeft(s))
  }

  predicate Blank(s: string) {
    TrimSpace(s) == ""
  }

  /** Neither end is white space. */
  predicate Solid(s: string) {
    s != [] && !IsSpace(s[0]) && !IsSpace(s[|s| - 1])
  }

  lemma TrimSolid(s: string)
    requires Solid(s)
    ensures TrimSpace(s) == s
  {
  }

  lemma {:induction false} TrimLeftAppend(s: string, t: string)
    requires t != [] && !IsSpace(t[0])
    ensures TrimLeft(s + t) == TrimLeft(s) + t
  {
    if s == [] {
      assert s + t == t;
    } else if IsSpace(s[0]) {
      assert (s + t)[1..] == s[1..] + t;
      TrimLeftAppend(s[1..], t);
    }
  }

  lemma {:induction false} TrimLeftEnds(s: string)
    ensures |TrimLeft(s)| <= |s|
    ensures TrimLeft(s) != [] ==> !IsSpace(TrimLeft(s)[0])
    ensures TrimLeft(s) == s[|s| - |TrimLeft(s)|..]
  {
    if s != [] && IsSpace(s[0]) {
      TrimLeftEnds(s[1..]);
    }
  }

  lemma {:induction false} TrimRightEnds(s: string)
    ensures |TrimRight(s)| <= |s|
    ensures TrimRight(s) == s[..|TrimRight(s)|]
    ensures TrimRight(s) != [] ==> !IsSpace(TrimRight(s)[|TrimRight(s)| - 1])
  {
    if s != [] && IsSpace(s[|s| - 1]) {
      TrimRightEnds(s[..|s| - 1]);
    }
  }

  lemma TrimIsSolid(s: string)
    ensures TrimSpace(s) == "" || Solid(TrimSpace(s))
    ensures TrimSpace(TrimSpace(s)) == TrimSpace(s)
    ensures forall c :: c in TrimSpace(s) ==> c in s
  {
    TrimLeftEnds(s);
    TrimRightEnds(TrimLeft(s));
  }

  predicate Spaces(s: string) {
    forall i :: 0 <= i < |s| ==> IsSpace(s[i])
  }

  /** `t` is `s` without the white space at its ends. */
  predicate Core(s: string, a: string, t: string, b: string) {
    s == a + t + b && Spaces(a) && Spaces(b) && (t == "" || Solid(t))
  }

  lemma {:induction false} TrimLeftOf(a: string, t: string)
    requires Spaces(a) && (t == "" || !IsSpace(t[0]))
    ensures TrimLeft(a + t) == t
  {
    if a == [] {
      assert a + t == t;
    } else {
      assert (a + t)[1..] == a[1..] + t;
      TrimLeftOf(a[1..], t);
    }
  }

  lemma {:induction false} TrimRightOf(t: string, b: string)
    requires Spaces(b) && (t == "" || !IsSpace(t[|t| - 1]))
    ensures TrimRight(t + b) == t
  {
    if b == [] {
      assert t + b == t;
    } else {
      assert (t + b)[..|t + b| - 1] == t + b[..|b| - 1];
      TrimRightOf(t, b[..|b| - 1]);
    }
  }

  /** Trimming takes away exactly the white space at the ends. */
  lemma TrimIsCore(s: string, a: string, t: string, b: string)
    requires Core(s, a, t, b)
    ensures TrimSpace(s) == t
  {
    if t == "" {
      assert Spaces(a + b);
      TrimLeftOf(a + b, "");
      assert s == (a + b) + "";
    } else {
      TrimLeftOf(a, t + b);
      assert s == a + (t + b);
      TrimRightOf(t, b);
    }
  }

  lemma {:induction false} TrimLeftDrops(s: string) returns (a: string)
    ensures s == a + TrimLeft(s) && Spaces(a)
  {
    if s != [] && IsSpace(s[0]) {
      var rest := TrimLeftDrops(s[1..]);
      a := [s[0]] + rest;
      assert s == [s[0]] + s[1..];
    } else {
      a := "";
    }
  }

  lemma {:induction false} TrimRightDrops(s: string) returns (b: string)
    ensures s == TrimRight(s) + b && Spaces(b)
  {
    if s != [] && IsSpace(s[|s| - 1]) {
      var rest := TrimRightDrops(s[..|s| - 1]);
      b := rest + [s[|s| - 1]];
      assert s == s[..|s| - 1] + [s[|s| - 1]];
    } else {
      b := "";
    }
  }

  /** Every text has such a core. */
  lemma HasCore(s: string) returns (a: string, b: string)
    ensures Core(s, a, TrimSpace(s), b)
  {
    var l := TrimLeft(s);
    a := TrimLeftDrops(s);
    b := TrimRightDrops(l);
    TrimIsSolid(s);
    hide TrimLeft, TrimRight, Solid, IsSpace;
    assert a + (TrimRight(l) + b) == a + TrimRight(l) + b;
  }

  /** A visible character keeps a text from being blank. */
  lemma NotBlank(s: string, c: char)
    requires c in s && !IsSpace(c)
    ensures !Blank(s)
  {
    TrimLeftKeeps(s, c);
    TrimRightKeeps(TrimLeft(s), c);
  }

  lemma {:induction false} TrimLeftKeeps(s: string, c: char)
    requires c in s && !IsSpace(c)
    ensures c in TrimLeft(s)
  {
    if IsSpace(s[0]) {
      TrimLeftKeeps(s[1..], c);
    }
  }

  lemma {:induction false} TrimRightKeeps(s: string, c: char)
    requires c in s && !IsSpace(c)
    ensures c in TrimRight(s)
  {
    if IsSpace(s[|s| - 1]) {
      TrimRightKeeps(s[..|s| - 1], c);
    }
  }

  // ---------------------------------------------------------------- splitting and searching

  function Split(s: string, sep: char): (parts: seq<string>)
    ensures parts != []
  {
    if s == [] then [[]]
    else
      var rest := Split(s[1..], sep);
      if s[0] == sep then [[]] + rest else [[s[0]] + rest[0]] + rest[1..]
  }

  function LastOf<T>(s: seq<T>): T
    requires s != []
  {
    s[|s| - 1]
  }

  lemma {:induction false} SplitPlain(s: string, sep: char)
    requires sep !in s
    ensures Split(s, sep) == [s]
  {
    if s != [] {
      SplitPlain(s[1..], sep);
      assert [s[0]] + s[1..] == s;
    }
  }

  lemma {:induction false} SplitAppend(a: string, sep: char, b: string)
    ensures Split(a + [sep] + b, sep) == Split(a, sep) + Split(b, sep)
  {
    if a == [] {
      assert a + [sep] + b == [sep] + b;
      assert ([sep] + b)[1..] == b;
    } else {
      var whole := a + [sep] + b;
      assert whole[1..] == a[1..] + [sep] + b;
      SplitAppend(a[1..], sep, b);
    }
  }

  lemma {:induction false} SplitTailLength(a: string, b: string, sep: char)
    requires sep !in b
    ensures |Split(a + b, sep)| == |Split(a, sep)|
  {
    if a == [] {
      assert a + b == b;
      SplitPlain(b, sep);
    } else {
      assert (a + b)[1..] == a[1..] + b;
      SplitTailLength(a[1..], b, sep);
    }
  }

  /** Text without a separator extends the last part. */
  lemma {:induction false} SplitTail(a: string, b: string, sep: char)
    requires sep !in b
    ensures LastOf(Split(a + b, sep)) == LastOf(Split(a, sep)) + b
  {
    if a == [] {
      assert a + b == b;
      SplitPlain(b, sep);
    } else {
      assert (a + b)[1..] == a[1..] + b;
      SplitTail(a[1..], b, sep);
      var rest, all := Split(a[1..], sep), Split(a[1..] + b, sep);
      if a[0] != sep && |rest| == 1 {
        SplitTailLength(a[1..], b, sep);
        assert LastOf(Split(a + b, sep)) == [a[0]] + (rest[0] + b);
      } else {
        SplitTailLength(a[1..], b, sep);
      }
    }
  }

  predicate OccursAt(s: string, pattern: string, k: int) {
    0 <= k <= |s| - |pattern| && s[k..k + |pattern|] == pattern
  }

  function LastIndexFrom(s: string, pattern: string, k: int): (r: int)
    requires k <= |s| - |pattern|
    ensures -1 <= r
    ensures r >= 0 ==> r <= k && OccursAt(s, pattern, r)
    ensures forall i :: r < i <= k ==> !OccursAt(s, pattern, i)
    decreases k + 1
  {
    if k < 0 then -1 else if OccursAt(s, pattern, k) then k else LastIndexFrom(s, pattern, k - 1)
  }

  function LastIndex(s: string, pattern: string): (r: int)
    ensures -1 <= r && (r >= 0 ==> OccursAt(s, pattern, r))
    ensures forall i :: r < i ==> !OccursAt(s, pattern, i)
  {
    LastIndexFrom(s, pattern, |s| - |pattern|)
  }

  // ---------------------------------------------------------------- hexadecimal text and SHA-256

  predicate IsByte(c: char) {
    c as int < 256
  }

  function HexDigit(n: int): (c: char)
    requires 0 <= n < 16
    ensures IsHexDigit(c)
    ensures c == if n < 10 then '0' + n as char else 'a' + (n - 10) as char
  {
    "0123456789abcdef"[n]
  }

  predicate IsHexDigit(c: char) {
    '0' <= c <= '9' || 'a' <= c <= 'f'
  }

  predicate AllBytes(s: string) {
    forall i :: 0 <= i < |s| ==> IsByte(s[i])
  }

  predicate AllHex(s: string) {
    forall i :: 0 <= i < |s| ==> IsHexDigit(s[i])
  }

  function Hex(s: string): (h: string)
    requires AllBytes(s)
    ensures |h| == 2 * |s| && AllHex(h)
  {
    seq(2 * |s|, i requires 0 <= i < 2 * |s| => HexAt(s[i / 2], i % 2))
  }

  /** The upper (0) or the lower (1) digit of a byte. */
  function HexAt(c: char, half: nat): (d: char)
    requires IsByte(c)
    ensures IsHexDigit(d)
  {
    HexDigit(if half == 0 then c as int / 16 else c as int % 16)
  }

  lemma HexDigitsInjective(c: char, d: char)
    requires IsByte(c) && IsByte(d)
    requires HexDigit(c as int / 16) == HexDigit(d as int / 16)
    requires HexDigit(c as int % 16) == HexDigit(d as int % 16)
    ensures c == d
  {
    assert c as int / 16 == d as int / 16;
    assert c as int % 16 == d as int % 16;
  }

  lemma HexInjective(s: string, t: string)
    requires AllBytes(s) && AllBytes(t)
    requires Hex(s) == Hex(t)
    ensures s == t
  {
    assert |s| == |t|;
    forall k | 0 <= k < |s|
      ensures s[k] == t[k]
    {
      var h, g := Hex(s), Hex(t);
      assert h[2 * k] == HexAt(s[k], 0) && h[2 * k + 1] == HexAt(s[k], 1);
      assert g[2 * k] == HexAt(t[k], 0) && g[2 * k + 1] == HexAt(t[k], 1);
      HexDigitsInjective(s[k], t[k]);
    }
  }

  /** Any function with SHA-256's result shape: 32 bytes. */
  type Sha = f: string -> string |
      forall s :: |f(s)| == 32 && AllBytes(f(s))
    witness s => seq(32, _ => '0')

  function Sum(sha: Sha, s: string): (h: string)
    ensures |h| == 64 && AllHex(h)
  {
    Hex(sha(s))
  }

  /**
    No two of these inputs collide.  SHA-256 cannot be injective on all strings, so each theorem asks this
    of the finitely many strings that are actually hashed, and of nothing else.
   */
  ghost predicate CollisionFree(sha: Sha, inputs: set<string>) {
    forall s, t {:trigger NoCollision(sha, s, t)} :: s in inputs && t in inputs ==> NoCollision(sha, s, t)
  }

  predicate NoCollision(sha: Sha, s: string, t: string) {
    sha(s) == sha(t) ==> s == t
  }

  lemma SumInjective(sha: Sha, inputs: set<string>, s: string, t: string)
    requires CollisionFree(sha, inputs) && s in inputs && t in inputs
    requires Sum(sha, s) == Sum(sha, t)
    ensures s == t
  {
    HexInjective(sha(s), sha(t));
    assert NoCollision(sha, s, t);
  }

  lemma SumIsNotBlank(sha: Sha, s: string)
    ensures !Blank(Sum(sha, s))
  {
    NotBlank(Sum(sha, s), Sum(sha, s)[0]);
  }
}
