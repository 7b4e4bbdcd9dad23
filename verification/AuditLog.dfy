/**
  The hash-chained audit log (main.go:787-854): every line ends with the SHA-256 of the rest of the line,
  and carries the hash of the line before it.
 */
module AuditLog {
  import opened Text

  const PREFIX := "hash="

  function Replace(s: string, from: char, to: char): (r: string)
    ensures |r| == |s|
    ensures forall i :: 0 <= i < |s| ==> r[i] == if s[i] == from then to else s[i]
  {
    if s == [] then [] else [if s[0] == from then to else s[0]] + Replace(s[1..], from, to)
  }

  function SanitizeLog(value: string): string {
    var v := TrimSpace(Replace(Replace(Replace(value, '\n', ' '), '\r', ' '), '|', '/'));
    var cut := if |v| > 500 then v[..500] else v;
    if cut == "" then "empty" else cut
  }

  /** What is hashed: time, event, message and the previous hash, separated by bars. */
  function Raw(time: string, event: string, message: string, previous: string): string {
    time + "|" + SanitizeLog(event) + "|" + SanitizeLog(message) + "|" + previous
  }

  function Line(sha: Sha, raw: string): string {
    Marked(raw, Sum(sha, raw))
  }

  function Marked(raw: string, hash: string): string {
    raw + "|" + PREFIX + hash
  }

  function PreviousHash(data: string): string {
    if data == "" then "genesis"
    else
      var last := LastOf(Split(TrimSpace(data), '\n'));
      var idx := LastIndex(last, PREFIX);
      if idx == -1 then "unknown" else TrimSpace(last[idx + |PREFIX|..])
  }

  /** The log file.  `openOk` is false when it cannot be opened for appending. */
  class Log {
    const sha: Sha
    var data: string

    constructor (sha: Sha)
      ensures this.sha == sha && data == ""
    {
      this.sha := sha;
      data := "";
    }

    method Audit(time: string, event: string, message: string, openOk: bool)
      modifies this
      ensures !openOk ==> data == old(data)
      ensures openOk ==> data == Appended(sha, old(data), Entry(time, event, message))
      ensures openOk ==>
                var raw := time + "|" + SanitizeLog(event) + "|" + SanitizeLog(message) + "|" + PreviousHash(old(data));
                data == old(data) + ((raw + "|" + "hash=" + Sum(sha, raw)) + "\n")
    {
      hide PreviousHash, SanitizeLog, Sum;
      var previousHash := PreviousHash(data);
      var raw := Raw(time, event, message, previousHash);
      var line := Line(sha, raw) + "\n";
      if !openOk {
        return;
      }
      data := data + line;
    }
  }

  // ---------------------------------------------------------------- lines and their fields

  datatype Entry = Entry(time: string, event: string, message: string)

  /** What the RFC 3339 time format always yields. */
  predicate PlainTime(time: string) {
    Solid(time) && '|' !in time && '\n' !in time
  }

  /** What previous-hash fields look like: no separator and no line break. */
  predicate PlainField(s: string) {
    '|' !in s && '\n' !in s
  }

  lemma SanitizedIsPlain(value: string)
    ensures PlainField(SanitizeLog(value))
    ensures 1 <= |SanitizeLog(value)| <= 500
  {
    var r1 := Replace(value, '\n', ' ');
    var r2 := Replace(r1, '\r', ' ');
    var r3 := Replace(r2, '|', '/');
    assert '\n' !in r1;
    assert '\n' !in r2;
    assert PlainField(r3);
    TrimIsSolid(r3);
    var v := TrimSpace(r3);
    assert PlainField(v);
  }

  /** What becomes of one character of a recorded text. */
  function Cleaned(c: char): char {
    if c == '|' then '/' else if c == '\n' || c == '\r' then ' ' else c
  }

  function CleanedText(s: string): (r: string)
    ensures |r| == |s| && forall i :: 0 <= i < |s| ==> r[i] == Cleaned(s[i])
  {
    Replace(Replace(Replace(s, '\n', ' '), '\r', ' '), '|', '/')
  }

  /**
    What is recorded of a text: its first 500 bytes once the white space at its ends is gone, with slashes for bars and
    spaces for line breaks; "empty" exactly for white space alone, or for that word.
   */
  lemma SanitizedIs(value: string, a: string, t: string, b: string)
    requires Core(value, a, t, b)
    ensures t == "" ==> SanitizeLog(value) == "empty"
    ensures t != "" ==> |SanitizeLog(value)| == if |t| > 500 then 500 else |t|
    ensures t != "" ==> forall i :: 0 <= i < |SanitizeLog(value)| ==>
              SanitizeLog(value)[i]
              == if t[i] == '|' then '/' else if t[i] == '\n' || t[i] == '\r' then ' ' else t[i]
    ensures SanitizeLog(value) == "empty" <==> t == "" || t == "empty"
  {
    hide *;
    CleanedCore(value, a, t, b);
    TrimIsCore(CleanedText(value), CleanedText(a), CleanedText(t), CleanedText(b));
    SanitizedIsRecording(value);
    RecordingIs(t);
  }

  lemma SanitizedIsRecording(value: string)
    ensures SanitizeLog(value) == Recording(TrimSpace(CleanedText(value)))
  {
    hide TrimSpace;
  }

  lemma RecordingIs(t: string)
    ensures var r := Recording(CleanedText(t));
            && (t == "" ==> r == "empty")
            && (t != "" ==> |r| == if |t| > 500 then 500 else |t|)
            && (t != "" ==> forall i :: 0 <= i < |r| ==>
                  r[i] == if t[i] == '|' then '/' else if t[i] == '\n' || t[i] == '\r' then ' ' else t[i])
            && (r == "empty" <==> t == "" || t == "empty")
  {
    hide CleanedText;
    var r := Recording(CleanedText(t));
    if t != "" && r == "empty" {
      assert |t| == 5;
      assert t[0] == r[0] && t[1] == r[1] && t[2] == r[2] && t[3] == r[3] && t[4] == r[4];
      assert t == [t[0], t[1], t[2], t[3], t[4]];
    }
    if t == "empty" {
      assert CleanedText(t) == t;
    }
  }

  /** The cut and the word for nothing. */
  function Recording(v: string): string {
    var cut := if |v| > 500 then v[..500] else v;
    if cut == "" then "empty" else cut
  }

  lemma CleanedCore(value: string, a: string, t: string, b: string)
    requires Core(value, a, t, b)
    ensures Core(CleanedText(value), CleanedText(a), CleanedText(t), CleanedText(b))
  {
    hide CleanedText;
    assert CleanedText(value) == CleanedText(a) + CleanedText(t) + CleanedText(b);
    SpacesStay(a);
    SpacesStay(b);
    assert t != "" ==> Solid(CleanedText(t));
  }

  lemma SpacesStay(a: string)
    requires Spaces(a)
    ensures Spaces(CleanedText(a))
  {
    hide CleanedText;
  }

  /** A text that is recorded as it is. */
  predicate PlainText(s: string) {
    Solid(s) && |s| <= 500 && '|' !in s && '\n' !in s && '\r' !in s
  }

  lemma PlainIsKept(s: string)
    requires PlainText(s)
    ensures SanitizeLog(s) == s
  {
    assert s == "" + s + "";
    SanitizedIs(s, "", s, "");
  }

  lemma Split4(a: string, b: string, c: string, d: string)
    requires PlainField(a) && PlainField(b) && PlainField(c) && PlainField(d)
    ensures Split(a + "|" + b + "|" + c + "|" + d, '|') == [a, b, c, d]
  {
    SplitPlain(a, '|'); SplitPlain(b, '|'); SplitPlain(c, '|'); SplitPlain(d, '|');
    SplitAppend(a + "|" + b + "|" + c, '|', d);
    SplitAppend(a + "|" + b, '|', c);
    SplitAppend(a, '|', b);
  }

  /** A line splits at its bars into exactly the five fields it was made of. */
  lemma LineSplitsIntoFields(sha: Sha, e: Entry, previous: string)
    requires PlainTime(e.time) && PlainField(previous)
    ensures var raw := Raw(e.time, e.event, e.message, previous);
            && Split(raw, '|') == [e.time, SanitizeLog(e.event), SanitizeLog(e.message), previous]
            && Split(Line(sha, raw), '|')
               == [e.time, SanitizeLog(e.event), SanitizeLog(e.message), previous, "hash=" + Sum(sha, raw)]
  {
    SanitizedIsPlain(e.event);
    SanitizedIsPlain(e.message);
    Split4(e.time, SanitizeLog(e.event), SanitizeLog(e.message), previous);
    MarkedHashSplits(Raw(e.time, e.event, e.message, previous), Sum(sha, Raw(e.time, e.event, e.message, previous)));
  }

  lemma MarkedHashSplits(raw: string, hash: string)
    requires AllHex(hash)
    ensures Split(Marked(raw, hash), '|') == Split(raw, '|') + [PREFIX + hash]
  {
    assert raw + "|" + PREFIX + hash == raw + "|" + (PREFIX + hash);
    SplitAppend(raw, '|', PREFIX + hash);
    SplitPlain(PREFIX + hash, '|');
  }

  /** The raw text has no line break and starts with the time. */
  lemma RawShape(e: Entry, previous: string)
    requires PlainTime(e.time) && PlainField(previous)
    ensures var raw := Raw(e.time, e.event, e.message, previous);
            raw != [] && !IsSpace(raw[0]) && '\n' !in raw
  {
    SanitizedIsPlain(e.event);
    SanitizedIsPlain(e.message);
    BarsShape(e.time, SanitizeLog(e.event), SanitizeLog(e.message), previous);
  }

  lemma BarsShape(a: string, b: string, c: string, d: string)
    requires Solid(a) && PlainField(a) && PlainField(b) && PlainField(c) && PlainField(d)
    ensures var raw := a + "|" + b + "|" + c + "|" + d;
            raw != [] && !IsSpace(raw[0]) && '\n' !in raw
  {
    var raw := a + "|" + b + "|" + c + "|" + d;
    assert raw[0] == a[0];
    assert '\n' !in a + "|" + b;
    assert '\n' !in a + "|" + b + "|" + c;
  }

  // ---------------------------------------------------------------- reading the last hash back

  lemma MarkerStartsWithHa(s: string, k: int)
    requires OccursAt(s, PREFIX, k)
    ensures s[k] == 'h' && s[k + 1] == 'a'
  {
    assert s[k..k + 5][0] == PREFIX[0] && s[k..k + 5][1] == PREFIX[1];
  }

  lemma NoMarkerInside(before: string, hash: string, k: int)
    requires AllHex(hash) && k > |before|
    ensures !OccursAt(before + PREFIX + hash, PREFIX, k)
  {
    var s := before + PREFIX + hash;
    if OccursAt(s, PREFIX, k) {
      MarkerStartsWithHa(s, k);
      assert false;
    }
  }

  lemma LastMarker(before: string, hash: string)
    requires AllHex(hash)
    ensures LastIndex(before + PREFIX + hash, PREFIX) == |before|
  {
    assert OccursAt(before + PREFIX + hash, PREFIX, |before|);
    forall k | k > |before|
      ensures !OccursAt(before + PREFIX + hash, PREFIX, k)
    {
      NoMarkerInside(before, hash, k);
    }
  }

  function Appended(sha: Sha, data: string, e: Entry): string {
    data + (Line(sha, Raw(e.time, e.event, e.message, PreviousHash(data))) + "\n")
  }

  /** What the reader takes from a last line that ends in a marked hash. */
  lemma MarkedHashIsRead(before: string, hash: string)
    requires AllHex(hash) && hash != []
    ensures var last := before + PREFIX + hash;
            LastIndex(last, PREFIX) == |before| && TrimSpace(last[|before| + |PREFIX|..]) == hash
  {
    LastMarker(before, hash);
    assert (before + PREFIX + hash)[|before| + |PREFIX|..] == hash;
    TrimSolid(hash);
  }

  lemma MarkedShape(raw: string, hash: string)
    requires raw != [] && !IsSpace(raw[0]) && '\n' !in raw && AllHex(hash) && hash != []
    ensures Solid(Marked(raw, hash)) && '\n' !in Marked(raw, hash)
  {
    var line := Marked(raw, hash);
    assert line[0] == raw[0];
    assert line[|line| - 1] == hash[|hash| - 1];
    assert '\n' !in raw + "|";
    assert '\n' !in raw + "|" + PREFIX;
  }

  lemma LastLineIsMarked(data: string, raw: string, hash: string)
    requires raw != [] && !IsSpace(raw[0]) && '\n' !in raw && AllHex(hash) && hash != []
    ensures LastOf(Split(TrimSpace(data + (Marked(raw, hash) + "\n")), '\n'))
         == (LastOf(Split(TrimLeft(data), '\n')) + raw + "|") + PREFIX + hash
  {
    MarkedShape(raw, hash);
    TrimmedLog(data, Marked(raw, hash));
    SplitTail(TrimLeft(data), Marked(raw, hash), '\n');
    Reassociate(LastOf(Split(TrimLeft(data), '\n')), raw, hash);
  }

  lemma Reassociate(before: string, raw: string, hash: string)
    ensures before + Marked(raw, hash) == (before + raw + "|") + PREFIX + hash
  {
  }

  lemma LastOfSplit(s: string, sep: char)
    requires s != []
    ensures var rest := Split(s[1..], sep);
            && |Split(s, sep)| == (if s[0] == sep then 1 else 0) + |rest|
            && LastOf(Split(s, sep)) == if |Split(s, sep)| > 1 then LastOf(rest) else [s[0]] + LastOf(rest)
  {
  }

  lemma {:induction false} LastPartIsTail(s: string, sep: char) returns (k: nat)
    ensures k <= |s| && LastOf(Split(s, sep)) == s[k..]
    ensures |Split(s, sep)| == 1 ==> k == 0
  {
    k := 0;
    if s != [] {
      var i := LastPartIsTail(s[1..], sep);
      LastOfSplit(s, sep);
      hide Split;
      assert s[1..][i..] == s[i + 1..] && s == [s[0]] + s[1..];
      if |Split(s, sep)| > 1 {
        k := i + 1;
      }
    }
  }

  lemma OccursInside(s: string, a: string, t: string, b: string, pattern: string, k: int)
    requires s == a + t + b && OccursAt(t, pattern, k)
    ensures OccursAt(s, pattern, |a| + k)
  {
    var n := |pattern|;
    assert s[|a| + k..|a| + k + n] == t[k..k + n];
  }

  /** A log that was not written by this program, with no mark in it, reads as "unknown". */
  lemma UnmarkedLogIsUnknown(data: string)
    requires data != "" && forall k :: !OccursAt(data, "hash=", k)
    ensures PreviousHash(data) == "unknown"
  {
    var text := TrimSpace(data);
    var a, b := HasCore(data);
    var k := LastPartIsTail(text, '\n');
    var last := LastOf(Split(text, '\n'));
    var idx := LastIndex(last, PREFIX);
    hide OccursAt, Split, LastOf, Spaces, TrimSpace, LastIndex;
    if idx >= 0 {
      assert text == text[..k] + last + "";
      OccursInside(text, text[..k], last, "", PREFIX, idx);
      OccursInside(data, a, text, b, PREFIX, k + idx);
    }
  }

  /**
    The reader returns the hash of the line appended last, whatever the event and message contain and
    whatever the file held before, a torn or foreign last line included.
   */
  lemma PreviousHashReadsLastLine(sha: Sha, data: string, raw: string)
    requires raw != [] && !IsSpace(raw[0]) && '\n' !in raw
    ensures PreviousHash(data + (Line(sha, raw) + "\n")) == Sum(sha, raw)
  {
    LastLineIsMarked(data, raw, Sum(sha, raw));
    MarkedHashIsRead(LastOf(Split(TrimLeft(data), '\n')) + raw + "|", Sum(sha, raw));
  }

  /** Trimming drops the final line break and touches nothing of a solid last line. */
  lemma TrimmedLog(data: string, line: string)
    requires Solid(line)
    ensures TrimSpace(data + (line + "\n")) == TrimLeft(data) + line
  {
    TrimLeftAppend(data, line + "\n");
    var kept := TrimLeft(data) + line;
    assert TrimLeft(data) + (line + "\n") == kept + "\n";
    assert (kept + "\n")[..|kept|] == kept;
    assert kept[|kept| - 1] == line[|line| - 1];
    assert TrimRight(kept) == kept;
    assert TrimRight(kept + "\n") == TrimRight(kept);
  }

  // ---------------------------------------------------------------- the chain

  /** The log after these entries, starting from an empty file. */
  function Logged(sha: Sha, es: seq<Entry>): string {
    if es == [] then "" else Appended(sha, Logged(sha, es[..|es| - 1]), LastOf(es))
  }

  function ChainHash(sha: Sha, es: seq<Entry>): string {
    if es == [] then "genesis" else Sum(sha, ChainRaw(sha, es))
  }

  function ChainRaw(sha: Sha, es: seq<Entry>): string
    requires es != []
    decreases es, 0
  {
    var e := LastOf(es);
    Raw(e.time, e.event, e.message, ChainHash(sha, es[..|es| - 1]))
  }

  predicate PlainTimes(es: seq<Entry>) {
    forall i :: 0 <= i < |es| ==> PlainTime(es[i].time)
  }

  lemma PlainTimesPrefix(es: seq<Entry>)
    requires es != [] && PlainTimes(es)
    ensures PlainTimes(es[..|es| - 1])
  {
    var before := es[..|es| - 1];
    forall i | 0 <= i < |before|
      ensures PlainTime(before[i].time)
    {
      assert before[i] == es[i];
    }
  }

  lemma ChainHashIsPlain(sha: Sha, es: seq<Entry>)
    ensures PlainField(ChainHash(sha, es))
    ensures es == [] <==> |ChainHash(sha, es)| != 64
  {
  }

  /** Reading the file back yields the hash of the chain, at every length. */
  lemma {:induction false} LogHoldsChainHash(sha: Sha, es: seq<Entry>)
    requires PlainTimes(es)
    ensures PreviousHash(Logged(sha, es)) == ChainHash(sha, es)
  {
    if es != [] {
      var before, e := es[..|es| - 1], LastOf(es);
      LogHoldsChainHash(sha, before);
      ChainHashIsPlain(sha, before);
      RawShape(e, ChainHash(sha, before));
      PreviousHashReadsLastLine(sha, Logged(sha, before), ChainRaw(sha, es));
    }
  }

  /** Everything hashed while writing these entries. */
  function HashedRaws(sha: Sha, es: seq<Entry>): set<string> {
    if es == [] then {} else {ChainRaw(sha, es)} + HashedRaws(sha, es[..|es| - 1])
  }

  /** What the log records of each entry. */
  function Recorded(es: seq<Entry>): (r: seq<Entry>)
    ensures |r| == |es|
  {
    if es == [] then []
    else
      Recorded(es[..|es| - 1]) + [RecordedEntry(LastOf(es))]
  }

  lemma SameRawSameFields(e: Entry, previous: string, e': Entry, previous': string)
    requires PlainTime(e.time) && PlainField(previous) && PlainTime(e'.time) && PlainField(previous')
    requires Raw(e.time, e.event, e.message, previous) == Raw(e'.time, e'.event, e'.message, previous')
    ensures e.time == e'.time && SanitizeLog(e.event) == SanitizeLog(e'.event)
    ensures SanitizeLog(e.message) == SanitizeLog(e'.message) && previous == previous'
  {
    SanitizedIsPlain(e.event);
    SanitizedIsPlain(e.message);
    SanitizedIsPlain(e'.event);
    SanitizedIsPlain(e'.message);
    Split4(e.time, SanitizeLog(e.event), SanitizeLog(e.message), previous);
    Split4(e'.time, SanitizeLog(e'.event), SanitizeLog(e'.message), previous');
    SameFour(e.time, SanitizeLog(e.event), SanitizeLog(e.message), previous,
             e'.time, SanitizeLog(e'.event), SanitizeLog(e'.message), previous');
  }

  lemma SameFour(a: string, b: string, c: string, d: string, a': string, b': string, c': string, d': string)
    requires [a, b, c, d] == [a', b', c', d']
    ensures a == a' && b == b' && c == c' && d == d'
  {
    var s, t := [a, b, c, d], [a', b', c', d'];
    assert s[0] == t[0] && s[1] == t[1] && s[2] == t[2] && s[3] == t[3];
  }

  function RecordedEntry(e: Entry): Entry {
    Entry(e.time, SanitizeLog(e.event), SanitizeLog(e.message))
  }

  lemma LastEntriesAgree(sha: Sha, inputs: set<string>, es: seq<Entry>, es': seq<Entry>)
    requires es != [] && es' != [] && PlainTimes(es) && PlainTimes(es')
    requires CollisionFree(sha, inputs) && ChainRaw(sha, es) in inputs && ChainRaw(sha, es') in inputs
    requires ChainHash(sha, es) == ChainHash(sha, es')
    ensures ChainHash(sha, es[..|es| - 1]) == ChainHash(sha, es'[..|es'| - 1])
    ensures RecordedEntry(LastOf(es)) == RecordedEntry(LastOf(es'))
  {
    var p, p' := ChainHash(sha, es[..|es| - 1]), ChainHash(sha, es'[..|es'| - 1]);
    ChainHashIsPlain(sha, es[..|es| - 1]);
    ChainHashIsPlain(sha, es'[..|es'| - 1]);
    SumInjective(sha, inputs, ChainRaw(sha, es), ChainRaw(sha, es'));
    SameRawSameFields(LastOf(es), p, LastOf(es'), p');
  }

  /** Two logs that end in the same hash record the same entries, one by one. */
  lemma {:induction false} SameHashSameLog(sha: Sha, inputs: set<string>, es: seq<Entry>, es': seq<Entry>)
    requires PlainTimes(es) && PlainTimes(es')
    requires HashedRaws(sha, es) <= inputs && HashedRaws(sha, es') <= inputs && CollisionFree(sha, inputs)
    requires ChainHash(sha, es) == ChainHash(sha, es')
    ensures Recorded(es) == Recorded(es')
    decreases |es|
  {
    ChainHashIsPlain(sha, es);
    ChainHashIsPlain(sha, es');
    if es != [] {
      LastEntriesAgree(sha, inputs, es, es');
      PlainTimesPrefix(es);
      PlainTimesPrefix(es');
      SameHashSameLog(sha, inputs, es[..|es| - 1], es'[..|es'| - 1]);
    }
  }

  predicate PlainEntries(es: seq<Entry>) {
    forall i :: 0 <= i < |es| ==> PlainTime(es[i].time) && PlainText(es[i].event) && PlainText(es[i].message)
  }

  lemma {:induction false} PlainEntriesAreKept(es: seq<Entry>)
    requires PlainEntries(es)
    ensures Recorded(es) == es
  {
    hide SanitizeLog, PlainText, PlainTime;
    if es != [] {
      var before, e := es[..|es| - 1], LastOf(es);
      PlainEntriesAreKept(before);
      PlainIsKept(e.event);
      PlainIsKept(e.message);
      assert RecordedEntry(e) == e;
      assert es == before + [e];
    }
  }

  /** Two logs of plain entries that end in the same hash hold the same entries themselves. */
  lemma SameHashSameEntries(sha: Sha, inputs: set<string>, es: seq<Entry>, es': seq<Entry>)
    requires PlainEntries(es) && PlainEntries(es')
    requires HashedRaws(sha, es) <= inputs && HashedRaws(sha, es') <= inputs && CollisionFree(sha, inputs)
    requires ChainHash(sha, es) == ChainHash(sha, es')
    ensures es == es'
  {
    PlainEntriesAreKept(es);
    PlainEntriesAreKept(es');
    SameHashSameLog(sha, inputs, es, es');
  }

  /** The recorded entries fix every byte of the file. */
  lemma {:induction false} SameEntriesSameFile(sha: Sha, es: seq<Entry>, es': seq<Entry>)
    requires Recorded(es) == Recorded(es')
    ensures Logged(sha, es) == Logged(sha, es')
  {
    if es != [] {
      var r, r' := Recorded(es), Recorded(es');
      assert r[..|r| - 1] == Recorded(es[..|es| - 1]) && r'[..|r'| - 1] == Recorded(es'[..|es'| - 1]);
      assert LastOf(r) == RecordedEntry(LastOf(es)) && LastOf(r') == RecordedEntry(LastOf(es'));
      SameEntriesSameFile(sha, es[..|es| - 1], es'[..|es'| - 1]);
    }
  }
}
