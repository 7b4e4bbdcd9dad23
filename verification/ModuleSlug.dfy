/** Module identifiers and the module list of a plan (web_modules_api.go:402-420, 863-872). */
module ModuleSlug {
  import opened Text

  predicate IsWord(c: char) {
    'a' <= c <= 'z' || '0' <= c <= '9'
  }

  /** Letters a-z, digits and single underscores, with no underscore at either end. */
  predicate Canonical(s: string) {
    && (forall i :: 0 <= i < |s| ==> 'a' <= s[i] <= 'z' || '0' <= s[i] <= '9' || s[i] == '_')
    && NoDouble(s)
    && (s != [] ==> s[0] != '_' && s[|s| - 1] != '_')
  }

  predicate NoDouble(s: string) {
    forall i :: 0 <= i < |s| - 1 ==> !(s[i] == '_' && s[i + 1] == '_')
  }

  /** A mapping of characters to lower case: it fixes what is lower case already. */
  ghost predicate Lowers(lower: char -> char) {
    forall c :: 'a' <= c <= 'z' || '0' <= c <= '9' || c == '_' ==> lower(c) == c
  }

  function Mapped(lower: char -> char, s: string): (r: string)
    ensures |r| == |s|
  {
    seq(|s|, i requires 0 <= i < |s| => lower(s[i]))
  }

  /** Every run of other characters becomes one underscore; none if one was just written. */
  function Collapse(s: string, lastSep: bool): string {
    if s == [] then []
    else if IsWord(s[0]) then [s[0]] + Collapse(s[1..], false)
    else (if lastSep then [] else ['_']) + Collapse(s[1..], true)
  }

  function TrimStart(s: string): string {
    if s != [] && s[0] == '_' then TrimStart(s[1..]) else s
  }

  function TrimEnd(s: string): string {
    if s != [] && s[|s| - 1] == '_' then TrimEnd(s[..|s| - 1]) else s
  }

  function Slug(lower: char -> char, value: string): string {
    TrimEnd(TrimStart(Collapse(Mapped(lower, TrimSpace(value)), false)))
  }

  lemma CollapseNothing(lastSep: bool)
    ensures Collapse([], lastSep) == []
  {
  }

  lemma CollapseStep(b: string, s: string, lastSep: bool)
    requires s != []
    ensures b + Collapse(s, lastSep) == (b + Written(s[0], lastSep)) + Collapse(s[1..], !IsWord(s[0]))
  {
    hide IsWord;
    var rest := Collapse(s[1..], !IsWord(s[0]));
    assert Collapse(s, lastSep) == Written(s[0], lastSep) + rest;
    hide Collapse, Written;
    assert b + (Written(s[0], lastSep) + rest) == (b + Written(s[0], lastSep)) + rest;
  }

  /** What one character adds to the slug. */
  function Written(c: char, lastSep: bool): string {
    if IsWord(c) then [c] else if lastSep then [] else ['_']
  }

  /** The loop of scsModuleSlug. */
  method CollapseRuns(text: string) returns (b: string)
    ensures b == Collapse(text, false)
  {
    hide Collapse, IsWord;
    b := "";
    var lastSep := false;
    assert text[0..] == text;
    for i := 0 to |text|
      invariant b + Collapse(text[i..], lastSep) == Collapse(text, false)
    {
      var r := text[i];
      assert text[i..][1..] == text[i + 1..];
      CollapseStep(b, text[i..], lastSep);
      if IsWord(r) {
        b, lastSep := b + [r], false;
        continue;
      }
      if !lastSep {
        b, lastSep := b + ['_'], true;
      }
    }
    assert text[|text|..] == [];
    CollapseNothing(lastSep);
  }

  /** scsModuleSlug. */
  method ScsModuleSlug(lower: char -> char, value: string) returns (slug: string)
    ensures slug == Slug(lower, value)
  {
    var collapsed := CollapseRuns(Mapped(lower, TrimSpace(value)));
    slug := TrimEnd(TrimStart(collapsed));
  }

  lemma {:induction false} CollapseShape(s: string, lastSep: bool)
    ensures var r := Collapse(s, lastSep);
            && (forall i :: 0 <= i < |r| ==> IsWord(r[i]) || r[i] == '_')
            && NoDouble(r) && (lastSep && r != [] ==> r[0] != '_')
  {
    if s != [] {
      CollapseShape(s[1..], !IsWord(s[0]));
    }
  }

  lemma {:induction false} TrimStartShape(s: string)
    ensures var r := TrimStart(s); |r| <= |s| && r == s[|s| - |r|..] && (r != [] ==> r[0] != '_')
  {
    if s != [] && s[0] == '_' {
      TrimStartShape(s[1..]);
    }
  }

  lemma {:induction false} TrimEndShape(s: string)
    ensures var r := TrimEnd(s); |r| <= |s| && r == s[..|r|] && (r != [] ==> r[|r| - 1] != '_')
  {
    if s != [] && s[|s| - 1] == '_' {
      TrimEndShape(s[..|s| - 1]);
    }
  }

  /** Every slug is canonical. */
  lemma SlugIsCanonical(lower: char -> char, value: string)
    ensures Canonical(Slug(lower, value))
  {
    var collapsed := Collapse(Mapped(lower, TrimSpace(value)), false);
    CollapseShape(Mapped(lower, TrimSpace(value)), false);
    var start := TrimStart(collapsed);
    TrimStartShape(collapsed);
    TrimEndShape(start);
    var slug := TrimEnd(start);
    var k := |collapsed| - |start|;
    assert forall i :: 0 <= i < |slug| ==> slug[i] == collapsed[k + i];
  }

  lemma {:induction false} CollapseKeeps(s: string, lastSep: bool)
    requires forall i :: 0 <= i < |s| ==> IsWord(s[i]) || s[i] == '_'
    requires NoDouble(s) && (lastSep && s != [] ==> s[0] != '_')
    ensures Collapse(s, lastSep) == s
  {
    if s != [] {
      var rest := s[1..];
      forall i | 0 <= i < |rest| - 1
        ensures !(rest[i] == '_' && rest[i + 1] == '_')
      {
        assert rest[i] == s[i + 1] && rest[i + 1] == s[i + 2];
      }
      CollapseKeeps(rest, !IsWord(s[0]));
      assert s == [s[0]] + rest;
    }
  }

  /** The texts slugging leaves alone are exactly the canonical ones. */
  lemma CanonicalIff(lower: char -> char, s: string)
    requires Lowers(lower)
    ensures Slug(lower, s) == s <==> Canonical(s)
  {
    if Canonical(s) {
      if s != [] {
        assert IsWord(s[0]) && IsWord(s[|s| - 1]);
        TrimSolid(s);
      }
      assert Mapped(lower, s) == s;
      CollapseKeeps(s, false);
    } else {
      SlugIsCanonical(lower, s);
    }
  }

  /** Slugging twice is slugging once. */
  lemma SlugIsIdempotent(lower: char -> char, value: string)
    requires Lowers(lower)
    ensures Slug(lower, Slug(lower, value)) == Slug(lower, value)
  {
    SlugIsCanonical(lower, value);
    CanonicalIff(lower, Slug(lower, value));
  }

  // ---------------------------------------------------------------- a slug is its words, joined

  /** The maximal runs of letters and digits; `word` is the run that is open. */
  function Words(s: string, word: string): seq<string> {
    if s == [] then (if word == [] then [] else [word])
    else if IsWord(s[0]) then Words(s[1..], word + [s[0]])
    else (if word == [] then [] else [word]) + Words(s[1..], [])
  }

  function Joined(words: seq<string>): string {
    if words == [] then "" else if |words| == 1 then words[0] else words[0] + "_" + Joined(words[1..])
  }

  predicate AllWord(s: string) {
    forall i :: 0 <= i < |s| ==> IsWord(s[i])
  }

  lemma {:induction false} WordsAreNotEmpty(s: string, word: string)
    ensures forall i :: 0 <= i < |Words(s, word)| ==> Words(s, word)[i] != []
  {
    if s != [] && IsWord(s[0]) {
      WordsAreNotEmpty(s[1..], word + [s[0]]);
    } else if s != [] {
      WordsAreNotEmpty(s[1..], []);
    }
  }

  lemma {:induction false} TrimEndAppend(a: string, b: string)
    ensures TrimEnd(a + b) == if TrimEnd(b) == "" then TrimEnd(a) else a + TrimEnd(b)
  {
    if b == [] {
      assert a + b == a;
    } else if b[|b| - 1] == '_' {
      assert (a + b)[..|a + b| - 1] == a + b[..|b| - 1];
      TrimEndAppend(a, b[..|b| - 1]);
    }
  }

  /** A word that is open, and what follows it. */
  lemma {:induction false} OpenWord(s: string, word: string)
    requires word != [] && AllWord(word)
    ensures TrimEnd(word + Collapse(s, false)) == Joined(Words(s, word))
    decreases |s|
  {
    if s == [] {
      assert word + [] == word;
    } else if IsWord(s[0]) {
      OpenWord(s[1..], word + [s[0]]);
      assert word + ([s[0]] + Collapse(s[1..], false)) == (word + [s[0]]) + Collapse(s[1..], false);
    } else {
      NoWord(s[1..]);
      WordsAreNotEmpty(s[1..], []);
      WordThenRest(word, Collapse(s[1..], true), Words(s[1..], []));
    }
  }

  lemma WordThenRest(word: string, rest: string, words: seq<string>)
    requires word != [] && AllWord(word) && TrimEnd(rest) == Joined(words)
    requires forall i :: 0 <= i < |words| ==> words[i] != []
    ensures TrimEnd(word + (['_'] + rest)) == Joined([word] + words)
  {
    var head := word + ['_'];
    assert word + (['_'] + rest) == head + rest;
    TrimEndAppend(head, rest);
    assert head[..|head| - 1] == word;
    assert TrimEnd(head) == TrimEnd(word) == word;
    assert words != [] ==> ([word] + words)[1..] == words;
  }

  /** No word is open: separators have just been written or nothing has. */
  lemma {:induction false} NoWord(s: string)
    ensures TrimEnd(Collapse(s, true)) == Joined(Words(s, []))
    decreases |s|
  {
    if s != [] && IsWord(s[0]) {
      OpenWord(s[1..], [s[0]]);
      assert [] + [s[0]] == [s[0]];
    } else if s != [] {
      NoWord(s[1..]);
      assert [] + Collapse(s[1..], true) == Collapse(s[1..], true);
      assert [] + Words(s[1..], []) == Words(s[1..], []);
    }
  }

  /** A slug is the words of the trimmed text in lower case, joined by underscores. */
  lemma SlugIsWordsJoined(lower: char -> char, value: string)
    ensures Slug(lower, value) == Joined(Words(Mapped(lower, TrimSpace(value)), []))
  {
    SlugOf(Mapped(lower, TrimSpace(value)));
  }

  lemma SlugOf(s: string)
    ensures TrimEnd(TrimStart(Collapse(s, false))) == Joined(Words(s, []))
  {
    if s != [] && IsWord(s[0]) {
      OpenWord(s[1..], [s[0]]);
      assert [] + [s[0]] == [s[0]];
    } else if s != [] {
      NoWord(s[1..]);
      CollapseShape(s[1..], true);
      var rest := Collapse(s[1..], true);
      assert (['_'] + rest)[1..] == rest;
      assert [] + Words(s[1..], []) == Words(s[1..], []);
    }
  }

  // ---------------------------------------------------------------- the module list of a plan

  /** The first `n` raw identifiers have one with this slug. */
  predicate Occurs(lower: char -> char, raws: seq<string>, n: nat, id: string)
    requires n <= |raws|
  {
    exists k :: 0 <= k < n && Slug(lower, raws[k]) == id
  }

  /** Where the slug first occurs. */
  function FirstAt(lower: char -> char, raws: seq<string>, id: string): (k: nat)
    requires Occurs(lower, raws, |raws|, id)
    ensures k < |raws| && Slug(lower, raws[k]) == id
    ensures forall j :: 0 <= j < k ==> Slug(lower, raws[j]) != id
    decreases |raws|
  {
    var last := |raws| - 1;
    if Occurs(lower, raws[..last], last, id) then FirstAt(lower, raws[..last], id)
    else
      assert forall j :: 0 <= j < last ==> raws[..last][j] == raws[j];
      last
  }

  /** The clean-up loop of a plan: canonical, not empty, each once, in the order of first occurrence. */
  method CleanModuleIds(lower: char -> char, raws: seq<string>) returns (ids: seq<string>)
    ensures forall id :: id in ids <==> id != "" && Occurs(lower, raws, |raws|, id)
    ensures forall i :: 0 <= i < |ids| ==> Canonical(ids[i])
    ensures forall i, j :: 0 <= i < j < |ids| ==> ids[i] != ids[j]
    ensures forall i, j :: 0 <= i < j < |ids| ==> FirstAt(lower, raws, ids[i]) < FirstAt(lower, raws, ids[j])
  {
    hide Slug, Canonical;
    ids := [];
    var seen: set<string> := {};
    ghost var at: seq<nat> := [];
    for n := 0 to |raws|
      invariant forall id :: id in seen <==> id in ids
      invariant forall id :: id in ids <==> id != "" && Occurs(lower, raws, n, id)
      invariant |at| == |ids|
      invariant forall i :: 0 <= i < |ids| ==> FirstlyAt(lower, raws, n, ids[i], at[i]) && Canonical(ids[i])
      invariant forall i, j :: 0 <= i < j < |ids| ==> at[i] < at[j]
    {
      var id := ScsModuleSlug(lower, raws[n]);
      SlugIsCanonical(lower, raws[n]);
      if id == "" || id in seen {
        continue;
      }
      seen := seen + {id};
      ids, at := ids + [id], at + [n];
    }
    forall i | 0 <= i < |ids|
      ensures ids[i] in ids && FirstAt(lower, raws, ids[i]) == at[i]
    {
    }
  }

  predicate FirstlyAt(lower: char -> char, raws: seq<string>, n: nat, id: string, k: nat)
    requires n <= |raws|
  {
    k < n && Slug(lower, raws[k]) == id && forall j :: 0 <= j < k ==> Slug(lower, raws[j]) != id
  }
}
