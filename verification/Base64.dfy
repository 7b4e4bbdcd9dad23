/** Unpadded standard base64 (sections 3.2 and 4 of RFC 4648) as Go's RawStdEncoding implements it. */
module Base64 {
  import opened Common
  import opened Text

  function Digit64(n: int): char
    requires 0 <= n < 64
  {
    if n < 26 then 'A' + n as char
    else if n < 52 then 'a' + (n - 26) as char
    else if n < 62 then '0' + (n - 52) as char
    else if n == 62 then '+' else '/'
  }

  /** The value of a base64 character, or None outside the alphabet. */
  function Value64(c: char): (v: Option<int>)
    ensures v.Some? ==> 0 <= v.value < 64
  {
    if 'A' <= c <= 'Z' then Some(c as int - 'A' as int)
    else if 'a' <= c <= 'z' then Some(c as int - 'a' as int + 26)
    else if '0' <= c <= '9' then Some(c as int - '0' as int + 52)
    else if c == '+' then Some(62)
    else if c == '/' then Some(63)
    else None
  }

  /** The alphabet of table 1 in section 4 of RFC 4648. */
  lemma Alphabet(n: int)
    requires 0 <= n < 64
    ensures n < 26 ==> Digit64(n) == "ABCDEFGHIJKLMNOPQRSTUVWXYZ"[n]
    ensures 26 <= n < 52 ==> Digit64(n) == "abcdefghijklmnopqrstuvwxyz"[n - 26]
    ensures n >= 52 ==> Digit64(n) == "0123456789+/"[n - 52]
  {
  }

  /** Vectors of section 10 of RFC 4648, without padding. */
  lemma Vectors()
    ensures Encode("") == "" && Encode("f") == "Zg" && Encode("fo") == "Zm8"
    ensures Encode("foobar") == "Zm9vYmFy"
  {
    hide Digit64;
    EncodeCons("foobar");
    assert "foobar"[3..] == "bar" && "bar"[3..] == [];
    EncodeCons("bar");
    VectorDigits();
  }

  lemma VectorDigits()
    ensures Digit64(25) == 'Z' && Digit64(32) == 'g' && Digit64(38) == 'm' && Digit64(60) == '8' && Digit64(61) == '9'
    ensures Digit64(47) == 'v' && Digit64(24) == 'Y' && Digit64(5) == 'F' && Digit64(50) == 'y'
  {
  }

  lemma DigitValue(n: int)
    requires 0 <= n < 64
    ensures Value64(Digit64(n)) == Some(n)
    ensures Digit64(n) != '$' && Digit64(n) != '\r' && Digit64(n) != '\n' && !IsSpace(Digit64(n))
  {
  }

  predicate Plain64(s: string) {
    forall i :: 0 <= i < |s| ==> Value64(s[i]).Some?
  }

  function Byte(n: int): (c: char)
    requires 0 <= n < 256
    ensures IsByte(c) && c as int == n
  {
    n as char
  }

  function Encode(s: string): (r: string)
    requires AllBytes(s)
    ensures Plain64(r)
  {
    if s == [] then []
    else if |s| == 1 then
      var a := s[0] as int;
      [Digit64(a / 4), Digit64(a % 4 * 16)]
    else if |s| == 2 then
      var a, b := s[0] as int, s[1] as int;
      [Digit64(a / 4), Digit64(a % 4 * 16 + b / 16), Digit64(b % 16 * 4)]
    else
      var a, b, c := s[0] as int, s[1] as int, s[2] as int;
      Four(a, b, c) + Encode(s[3..])
  }

  function Four(a: int, b: int, c: int): (r: string)
    requires 0 <= a < 256 && 0 <= b < 256 && 0 <= c < 256
    ensures |r| == 4 && Plain64(r)
  {
    [Digit64(a / 4), Digit64(a % 4 * 16 + b / 16), Digit64(b % 16 * 4 + c / 64), Digit64(c % 64)]
  }

  /** The decoder skips line breaks wherever they stand. */
  function WithoutBreaks(s: string): string {
    if s == [] then []
    else (if s[0] == '\r' || s[0] == '\n' then [] else [s[0]]) + WithoutBreaks(s[1..])
  }

  function Decode(s: string): (r: Option<string>)
    ensures r.Some? ==> AllBytes(r.value)
  {
    DecodeQuanta(WithoutBreaks(s))
  }

  function First(p: int, q: int): (c: char)
    requires 0 <= p < 64 && 0 <= q < 64
    ensures IsByte(c)
  {
    Byte(p * 4 + q / 16)
  }

  function Second(q: int, u: int): (c: char)
    requires 0 <= q < 64 && 0 <= u < 64
    ensures IsByte(c)
  {
    Byte(q % 16 * 16 + u / 4)
  }

  function Third(u: int, v: int): (c: char)
    requires 0 <= u < 64 && 0 <= v < 64
    ensures IsByte(c)
  {
    Byte(u % 4 * 64 + v)
  }

  /** Four characters at a time; the bits left over in a short last group are dropped unchecked. */
  function DecodeQuanta(s: string): (r: Option<string>)
    ensures r.Some? ==> AllBytes(r.value)
  {
    if s == [] then Some([])
    else if |s| == 1 then None
    else if Value64(s[0]).None? || Value64(s[1]).None? then None
    else
      var p, q := Value64(s[0]).value, Value64(s[1]).value;
      if |s| == 2 then Some([First(p, q)])
      else if Value64(s[2]).None? then None
      else
        var u := Value64(s[2]).value;
        if |s| == 3 then Some([First(p, q), Second(q, u)])
        else if Value64(s[3]).None? then None
        else
          var v := Value64(s[3]).value;
          var rest := DecodeQuanta(s[4..]);
          if rest.None? then None else Some([First(p, q), Second(q, u), Third(u, v)] + rest.value)
  }

  lemma {:induction false} NoBreaksToDrop(s: string)
    requires Plain64(s)
    ensures WithoutBreaks(s) == s
  {
    if s != [] {
      assert Value64(s[0]).Some?;
      NoBreaksToDrop(s[1..]);
    }
  }

  lemma EncodeCons(s: string)
    requires AllBytes(s) && |s| > 2
    ensures Encode(s) == Four(s[0] as int, s[1] as int, s[2] as int) + Encode(s[3..])
  {
  }

  // ---------------------------------------------------------------- which texts decode to the same bytes

  lemma DigitOfValue(c: char, n: int)
    requires 0 <= n < 64
    ensures Value64(c) == Some(n) <==> c == Digit64(n)
  {
  }

  /** Two last characters that agree in the bits that count, for a group of `n` characters. */
  predicate SameBits(n: nat, c: char, d: char) {
    match n
    case 0 => c == d
    case 2 => Value64(c).Some? && Value64(d).Some? && Value64(c).value / 16 == Value64(d).value / 16
    case 3 => Value64(c).Some? && Value64(d).Some? && Value64(c).value / 4 == Value64(d).value / 4
    case _ => false
  }

  /** The same text, but for the dropped bits of a short last group. */
  predicate SameButDropped(s: string, t: string) {
    && |s| == |t| && (forall i :: 0 <= i < |s| - 1 ==> s[i] == t[i])
    && (s != [] ==> SameBits(|s| % 4, s[|s| - 1], t[|t| - 1]))
  }

  lemma SameButDroppedStep(s: string, t: string)
    requires |s| > 4 && |t| > 4
    ensures SameButDropped(s, t) <==> s[..4] == t[..4] && SameButDropped(s[4..], t[4..])
  {
    if s[..4] == t[..4] && SameButDropped(s[4..], t[4..]) {
      forall i | 0 <= i < |s| - 1
        ensures s[i] == t[i]
      {
        if i < 4 {
          assert s[..4][i] == t[..4][i];
        } else {
          assert s[4..][i - 4] == t[4..][i - 4];
        }
      }
    }
  }

  lemma {:induction false} EncodeLength(b: string)
    requires AllBytes(b)
    ensures |Encode(b)| == |b| / 3 * 4 + (if |b| % 3 == 0 then 0 else |b| % 3 + 1)
  {
    if |b| > 2 {
      EncodeLength(b[3..]);
    }
  }

  /** Eight bits at a time determine six bits at a time: for one, two and three bytes. */
  lemma PiecesOfOne(p: int, q: int, a: int)
    requires 0 <= q < 64
    ensures p * 4 + q / 16 == a <==> p == a / 4 && q / 16 == a % 4
  {
    HighAndLow4(a, p, q / 16);
  }

  lemma PiecesOfTwo(p: int, q: int, u: int, a: int, b: int)
    requires 0 <= q < 64 && 0 <= u < 64 && 0 <= b < 256
    ensures (p * 4 + q / 16 == a && q % 16 * 16 + u / 4 == b) <==>
              (p == a / 4 && q == a % 4 * 16 + b / 16 && u / 4 == b % 16)
  {
    PiecesOfOne(p, q, a);
    HighAndLow16(b, q % 16, u / 4);
    HighAndLow16(q, a % 4, b / 16);
  }

  lemma PiecesOfThree(p: int, q: int, u: int, v: int, a: int, b: int, c: int)
    requires 0 <= q < 64 && 0 <= u < 64 && 0 <= v < 64 && 0 <= b < 256 && 0 <= c < 256
    ensures (p * 4 + q / 16 == a && q % 16 * 16 + u / 4 == b && u % 4 * 64 + v == c) <==>
              (p == a / 4 && q == a % 4 * 16 + b / 16 && u == b % 16 * 4 + c / 64 && v == c % 64)
  {
    PiecesOfTwo(p, q, u, a, b);
    HighAndLow64(c, u % 4, v);
    HighAndLow4(u, b % 16, c / 64);
  }

  lemma HighAndLow4(x: int, hi: int, lo: int)
    requires 0 <= lo < 4
    ensures hi * 4 + lo == x <==> hi == x / 4 && lo == x % 4
  {
  }

  lemma HighAndLow16(x: int, hi: int, lo: int)
    requires 0 <= lo < 16
    ensures hi * 16 + lo == x <==> hi == x / 16 && lo == x % 16
  {
  }

  lemma HighAndLow64(x: int, hi: int, lo: int)
    requires 0 <= lo < 64
    ensures hi * 64 + lo == x <==> hi == x / 64 && lo == x % 64
  {
  }

  /** The bits that count in the last character of a short group. */
  lemma Bits2(c: char, m: int)
    requires 0 <= m < 4
    ensures SameBits(2, c, Digit64(m * 16)) <==> Value64(c).Some? && Value64(c).value / 16 == m
  {
    DigitValue(m * 16);
    hide Digit64, Value64;
  }

  lemma Bits3(c: char, m: int)
    requires 0 <= m < 16
    ensures SameBits(3, c, Digit64(m * 4)) <==> Value64(c).Some? && Value64(c).value / 4 == m
  {
    DigitValue(m * 4);
    hide Digit64, Value64;
  }

  lemma ShortGroups(x: string, b: string)
    requires AllBytes(b) && |x| < 4
    ensures DecodeQuanta(x) == Some(b) <==> SameButDropped(x, Encode(b))
  {
    EncodeLength(b);
    if |x| == 2 && |b| == 1 {
      OneByte(x, b);
    } else if |x| == 3 && |b| == 2 {
      TwoBytes(x, b);
    }
  }

  lemma OneByteRead(x: string, a: char)
    requires IsByte(a) && |x| == 2
    ensures DecodeQuanta(x) == Some([a]) <==>
              && Value64(x[0]).Some? && Value64(x[1]).Some?
              && Value64(x[0]).value * 4 + Value64(x[1]).value / 16 == a as int
  {
    hide Value64;
  }

  lemma OneByteWritten(x: string, a: char)
    requires IsByte(a) && |x| == 2
    ensures SameButDropped(x, Encode([a])) <==>
              Value64(x[0]) == Some(a as int / 4) && Value64(x[1]).Some? && Value64(x[1]).value / 16 == a as int % 4
  {
    DigitOfValue(x[0], a as int / 4);
    Bits2(x[1], a as int % 4);
    assert Encode([a]) == [Digit64(a as int / 4), Digit64(a as int % 4 * 16)];
    hide Digit64, Value64, SameBits, Encode;
  }

  lemma OneByte(x: string, b: string)
    requires AllBytes(b) && |x| == 2 && |b| == 1
    ensures DecodeQuanta(x) == Some(b) <==> SameButDropped(x, Encode(b))
  {
    hide DecodeQuanta, SameButDropped, Encode, Value64;
    assert b == [b[0]];
    OneByteRead(x, b[0]);
    OneByteWritten(x, b[0]);
    if Value64(x[0]).Some? && Value64(x[1]).Some? {
      PiecesOfOne(Value64(x[0]).value, Value64(x[1]).value, b[0] as int);
    }
  }

  lemma TwoBytesRead(x: string, a: char, c: char)
    requires IsByte(a) && IsByte(c) && |x| == 3
    ensures DecodeQuanta(x) == Some([a, c]) <==>
              && Value64(x[0]).Some? && Value64(x[1]).Some? && Value64(x[2]).Some?
              && Value64(x[0]).value * 4 + Value64(x[1]).value / 16 == a as int
              && Value64(x[1]).value % 16 * 16 + Value64(x[2]).value / 4 == c as int
  {
    hide Value64;
  }

  lemma TwoBytesWritten(x: string, a: char, c: char)
    requires IsByte(a) && IsByte(c) && |x| == 3
    ensures SameButDropped(x, Encode([a, c])) <==>
              && Value64(x[0]) == Some(a as int / 4) && Value64(x[1]) == Some(a as int % 4 * 16 + c as int / 16)
              && Value64(x[2]).Some? && Value64(x[2]).value / 4 == c as int % 16
  {
    DigitOfValue(x[0], a as int / 4);
    DigitOfValue(x[1], a as int % 4 * 16 + c as int / 16);
    Bits3(x[2], c as int % 16);
    assert Encode([a, c])
        == [Digit64(a as int / 4), Digit64(a as int % 4 * 16 + c as int / 16), Digit64(c as int % 16 * 4)];
    hide Digit64, Value64, SameBits, Encode;
  }

  lemma TwoBytes(x: string, b: string)
    requires AllBytes(b) && |x| == 3 && |b| == 2
    ensures DecodeQuanta(x) == Some(b) <==> SameButDropped(x, Encode(b))
  {
    hide DecodeQuanta, SameButDropped, Encode, Value64;
    assert b == [b[0], b[1]];
    TwoBytesRead(x, b[0], b[1]);
    TwoBytesWritten(x, b[0], b[1]);
    if Value64(x[0]).Some? && Value64(x[1]).Some? && Value64(x[2]).Some? {
      PiecesOfTwo(Value64(x[0]).value, Value64(x[1]).value, Value64(x[2]).value, b[0] as int, b[1] as int);
    }
  }

  lemma FullGroup(w: string, a: char, b: char, c: char)
    requires |w| >= 4 && IsByte(a) && IsByte(b) && IsByte(c)
    ensures w[..4] == Four(a as int, b as int, c as int) <==>
              && Value64(w[0]).Some? && Value64(w[1]).Some? && Value64(w[2]).Some? && Value64(w[3]).Some?
              && First(Value64(w[0]).value, Value64(w[1]).value) == a
              && Second(Value64(w[1]).value, Value64(w[2]).value) == b
              && Third(Value64(w[2]).value, Value64(w[3]).value) == c
  {
    hide Digit64, Value64, Four, First, Second, Third;
    GroupIs(w, a as int, b as int, c as int);
    if Value64(w[0]).Some? && Value64(w[1]).Some? && Value64(w[2]).Some? && Value64(w[3]).Some? {
      ThreeBytes(Value64(w[0]).value, Value64(w[1]).value, Value64(w[2]).value, Value64(w[3]).value, a, b, c);
    }
  }

  lemma ThreeBytes(p: int, q: int, u: int, v: int, a: char, b: char, c: char)
    requires 0 <= p < 64 && 0 <= q < 64 && 0 <= u < 64 && 0 <= v < 64 && IsByte(a) && IsByte(b) && IsByte(c)
    ensures (First(p, q) == a && Second(q, u) == b && Third(u, v) == c) <==>
              (p == a as int / 4 && q == a as int % 4 * 16 + b as int / 16
               && u == b as int % 16 * 4 + c as int / 64 && v == c as int % 64)
  {
    hide First, Second, Third;
    BytesAre(p, q, u, v, a, b, c);
    PiecesOfThree(p, q, u, v, a as int, b as int, c as int);
  }

  lemma BytesAre(p: int, q: int, u: int, v: int, a: char, b: char, c: char)
    requires 0 <= p < 64 && 0 <= q < 64 && 0 <= u < 64 && 0 <= v < 64
    ensures First(p, q) == a <==> p * 4 + q / 16 == a as int
    ensures Second(q, u) == b <==> q % 16 * 16 + u / 4 == b as int
    ensures Third(u, v) == c <==> u % 4 * 64 + v == c as int
  {
  }

  lemma GroupIs(w: string, a: int, b: int, c: int)
    requires |w| >= 4 && 0 <= a < 256 && 0 <= b < 256 && 0 <= c < 256
    ensures w[..4] == Four(a, b, c) <==>
              && Value64(w[0]) == Some(a / 4) && Value64(w[1]) == Some(a % 4 * 16 + b / 16)
              && Value64(w[2]) == Some(b % 16 * 4 + c / 64) && Value64(w[3]) == Some(c % 64)
  {
    DigitOfValue(w[0], a / 4);
    DigitOfValue(w[1], a % 4 * 16 + b / 16);
    DigitOfValue(w[2], b % 16 * 4 + c / 64);
    DigitOfValue(w[3], c % 64);
    hide Digit64, Value64;
    var f := Four(a, b, c);
    assert w[..4] == [w[0], w[1], w[2], w[3]] && f == [f[0], f[1], f[2], f[3]];
  }

  lemma LongGroups(x: string, b: string)
    requires AllBytes(b) && |x| >= 4 && |b| >= 3
    ensures DecodeQuanta(x) == Some(b) <==>
              x[..4] == Four(b[0] as int, b[1] as int, b[2] as int) && DecodeQuanta(x[4..]) == Some(b[3..])
  {
    FullGroup(x, b[0], b[1], b[2]);
    assert b == [b[0], b[1], b[2]] + b[3..];
    hide Value64, First, Second, Third, Four;
    if DecodeQuanta(x) == Some(b) {
      assert b[3..] == DecodeQuanta(x[4..]).value;
    }
  }

  /** The texts that decode to given bytes are their encoding, up to the dropped bits of a short last group. */
  lemma {:induction false} QuantaDecodeTo(x: string, b: string)
    requires AllBytes(b)
    ensures DecodeQuanta(x) == Some(b) <==> SameButDropped(x, Encode(b))
    decreases |x|
  {
    EncodeLength(b);
    if |x| < 4 {
      ShortGroups(x, b);
    } else if |b| < 3 {
      LongIsLong(x);
    } else {
      var e := Encode(b);
      LongGroups(x, b);
      QuantaDecodeTo(x[4..], b[3..]);
      EncodeCons(b);
      EncodeLength(b[3..]);
      hide DecodeQuanta, Encode, Four;
      assert e[..4] == Four(b[0] as int, b[1] as int, b[2] as int) && e[4..] == Encode(b[3..]);
      if |x| > 4 && |e| > 4 {
        SameButDroppedStep(x, e);
      } else if |x| == |e| {
        assert x == x[..4] && e == e[..4] && x[4..] == [] == e[4..];
      }
    }
  }

  lemma LongIsLong(x: string)
    requires |x| >= 4
    ensures DecodeQuanta(x).Some? ==> |DecodeQuanta(x).value| >= 3
  {
  }

  /**
    Which texts the decoder accepts for given bytes: their encoding, with line breaks anywhere and any dropped bits in a
    short last group, and no others.
   */
  lemma AcceptedTexts(s: string, b: string)
    requires AllBytes(b)
    ensures Decode(s) == Some(b) <==> SameButDropped(WithoutBreaks(s), Encode(b))
  {
    QuantaDecodeTo(WithoutBreaks(s), b);
  }

  predicate IsBreak(c: char) {
    c == '\r' || c == '\n'
  }

  predicate IsDigit64(c: char) {
    'A' <= c <= 'Z' || 'a' <= c <= 'z' || '0' <= c <= '9' || c == '+' || c == '/'
  }

  lemma PlainAppend(a: string, b: string)
    ensures Plain64(a + b) <==> Plain64(a) && Plain64(b)
  {
    hide Value64;
    assert forall i :: 0 <= i < |a| ==> (a + b)[i] == a[i];
    assert forall i :: 0 <= i < |b| ==> (a + b)[|a| + i] == b[i];
  }

  predicate NoForeign(s: string) {
    forall i :: 0 <= i < |s| ==> IsBreak(s[i]) || IsDigit64(s[i])
  }

  lemma NoForeignCons(c: char, s: string)
    ensures NoForeign([c] + s) <==> (IsBreak(c) || IsDigit64(c)) && NoForeign(s)
  {
    hide IsBreak, IsDigit64;
    assert forall i :: 0 <= i < |s| ==> ([c] + s)[i + 1] == s[i];
    assert ([c] + s)[0] == c;
  }

  /** Dropping the line breaks keeps every other character, in number and in kind. */
  lemma {:induction false} DropsBreaks(s: string)
    ensures |WithoutBreaks(s)| == |s| - multiset(s)['\r'] - multiset(s)['\n']
    ensures Plain64(WithoutBreaks(s)) <==> NoForeign(s)
  {
    if s != [] {
      var rest := s[1..];
      DropsBreaks(rest);
      assert s == [s[0]] + rest;
      NoForeignCons(s[0], rest);
      PlainAppend([s[0]], WithoutBreaks(rest));
      assert Plain64([s[0]]) <==> IsDigit64(s[0]) by {
        assert [s[0]][0] == s[0];
      }
      assert [] + WithoutBreaks(rest) == WithoutBreaks(rest);
      hide NoForeign, Plain64;
    }
  }

  lemma {:induction false} QuantaDecodeIff(x: string)
    ensures DecodeQuanta(x).Some? <==> Plain64(x) && |x| % 4 != 1
  {
    if |x| >= 4 {
      QuantaDecodeIff(x[4..]);
      FirstGroup(x);
      assert x == x[..4] + x[4..];
      PlainAppend(x[..4], x[4..]);
      hide DecodeQuanta, Plain64;
    } else {
      ShortGroupDecodes(x);
    }
  }

  lemma FirstFour(x: string)
    requires |x| >= 4
    ensures Plain64(x[..4]) <==>
              Value64(x[0]).Some? && Value64(x[1]).Some? && Value64(x[2]).Some? && Value64(x[3]).Some?
  {
    hide Value64;
    var w := x[..4];
    assert w[0] == x[0] && w[1] == x[1] && w[2] == x[2] && w[3] == x[3];
  }

  lemma FirstGroup(x: string)
    requires |x| >= 4
    ensures DecodeQuanta(x).Some? <==> Plain64(x[..4]) && DecodeQuanta(x[4..]).Some?
  {
    FirstFour(x);
    hide Value64, First, Second, Third, Plain64, AllBytes;
  }

  lemma ShortGroupDecodes(x: string)
    requires |x| < 4
    ensures DecodeQuanta(x).Some? <==> Plain64(x) && |x| != 1
  {
    hide Value64, First, Second, Third;
  }

  /**
    A text decodes to something exactly if it has no other characters than the 64 digits and line breaks, and its
    digits do not end in a group of one: padding, blanks and the other alphabet are refused.
   */
  lemma DecodesIff(s: string)
    ensures Decode(s).Some? <==>
              && (forall i :: 0 <= i < |s| ==>
                    s[i] == '\r' || s[i] == '\n' || 'A' <= s[i] <= 'Z' || 'a' <= s[i] <= 'z' || '0' <= s[i] <= '9'
                    || s[i] == '+' || s[i] == '/')
              && (|s| - multiset(s)['\r'] - multiset(s)['\n']) % 4 != 1
  {
    DropsBreaks(s);
    QuantaDecodeIff(WithoutBreaks(s));
  }

  lemma SameAsItself(b: string)
    requires AllBytes(b)
    ensures SameButDropped(Encode(b), Encode(b))
  {
    var e := Encode(b);
    EncodeLength(b);
    assert Plain64(e);
    hide Encode;
    assert e != [] ==> Value64(e[|e| - 1]).Some?;
  }

  lemma RoundTrip(s: string)
    requires AllBytes(s)
    ensures Decode(Encode(s)) == Some(s)
  {
    NoBreaksToDrop(Encode(s));
    SameAsItself(s);
    AcceptedTexts(Encode(s), s);
  }
}
