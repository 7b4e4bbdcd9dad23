/**
  Which texts the Argon2id decoder accepts (web_register_api.go:510-553), written down without its scanner: a numeral
  is blanks, perhaps a sign, and digits, and what follows a number in its field is not looked at.
 */
module HashText {
  import opened Common
  import opened Text
  import opened PasswordHash
  import Base64

  datatype Numeral = Numeral(blanks: string, sign: string, digits: string)

  predicate AllDigits(s: string) {
    forall i :: 0 <= i < |s| ==> IsDigit(s[i])
  }

  predicate AllBlanks(s: string) {
    forall i :: 0 <= i < |s| ==> IsSpace(s[i]) && s[i] != '\n'
  }

  predicate Readable(n: Numeral) {
    AllBlanks(n.blanks) && n.sign in {"", "+", "-"} && n.digits != [] && AllDigits(n.digits)
  }

  /** A natural number that a field of numbers below `limit` can hold. */
  predicate Fits(n: Numeral, limit: nat) {
    Readable(n) && n.sign == "" && ValueOf(n) < limit
  }

  function Shown(n: Numeral): string {
    n.blanks + (n.sign + n.digits)
  }

  function ValueOf(n: Numeral): int
    requires AllDigits(n.digits)
  {
    if n.sign == "-" then -(DigitsValue(n.digits) as int) else DigitsValue(n.digits)
  }

  /** Text that may follow a number. */
  predicate Ends(rest: string) {
    rest != [] ==> !IsDigit(rest[0])
  }

  // ---------------------------------------------------------------- one number

  lemma {:induction false} BlanksSkipped(b: string, t: string)
    requires AllBlanks(b) && t != [] && !IsSpace(t[0])
    ensures SkipBlanks(b + t) == t
  {
    if b == [] {
      assert b + t == t;
    } else {
      assert (b + t)[1..] == b[1..] + t;
      BlanksSkipped(b[1..], t);
    }
  }

  lemma {:induction false} SkippedBlanks(s: string) returns (b: string)
    ensures AllBlanks(b) && s == b + SkipBlanks(s)
  {
    b := [];
    if s != [] && IsSpace(s[0]) && s[0] != '\n' {
      var more := SkippedBlanks(s[1..]);
      b := [s[0]] + more;
      assert s == [s[0]] + s[1..];
    }
  }

  lemma NumeralStarts(n: Numeral, rest: string)
    requires Readable(n)
    ensures Shown(n) + rest == n.blanks + (n.sign + n.digits + rest)
    ensures SkipBlanks(Shown(n) + rest) == n.sign + n.digits + rest
  {
    var t := n.sign + n.digits + rest;
    assert t[0] == if n.sign == "" then n.digits[0] else n.sign[0];
    assert Shown(n) + rest == n.blanks + t;
    BlanksSkipped(n.blanks, t);
  }

  lemma UnsignedRead(n: Numeral, rest: string, limit: nat)
    requires Fits(n, limit) && Ends(rest)
    ensures ScanUnsigned(Shown(n) + rest, limit) == Some((ValueOf(n), rest))
  {
    NumeralStarts(n, rest);
    var t := n.digits + rest;
    assert n.sign + n.digits + rest == t;
    DigitRunStops(n.digits, rest);
    assert t[..|n.digits|] == n.digits && t[|n.digits|..] == rest;
  }

  lemma UnsignedForm(s: string, limit: nat) returns (n: Numeral, rest: string)
    requires ScanUnsigned(s, limit).Some?
    ensures Fits(n, limit) && Ends(rest) && s == Shown(n) + rest
    ensures ScanUnsigned(s, limit) == Some((ValueOf(n), rest))
  {
    var b := SkippedBlanks(s);
    var t := SkipBlanks(s);
    var k := DigitRun(t);
    n, rest := Numeral(b, "", t[..k]), t[k..];
    Regroup(b, "", t[..k], rest);
    assert t == t[..k] + t[k..] == "" + (t[..k] + t[k..]);
  }

  predicate Int64(x: int) {
    -0x8000_0000_0000_0000 <= x < 0x8000_0000_0000_0000
  }

  lemma SignRead(b: string, sign: string, u: string)
    requires AllBlanks(b) && sign in {"", "+", "-"} && u != [] && IsDigit(u[0])
    ensures ScanSigned(b + (sign + u)) == ScanInt(sign == "-", u)
  {
    var t := sign + u;
    assert t[0] == if sign == "" then u[0] else sign[0];
    BlanksSkipped(b, t);
    assert sign != "" ==> t[1..] == u;
    assert sign == "" ==> t == u;
    hide SkipBlanks, ScanInt, AllBlanks;
  }

  lemma SignedRead(n: Numeral, rest: string)
    requires Readable(n) && Ends(rest)
    ensures ScanSigned(Shown(n) + rest) == if Int64(ValueOf(n)) then Some((ValueOf(n), rest)) else None
  {
    var u := n.digits + rest;
    assert u[0] == n.digits[0];
    DigitRunStops(n.digits, rest);
    assert u[..|n.digits|] == n.digits && u[|n.digits|..] == rest;
    SignRead(n.blanks, n.sign, u);
    Regroup(n.blanks, n.sign, n.digits, rest);
    hide SkipBlanks, DigitRun, DigitsValue, ScanSigned;
  }

  lemma IntForm(minus: bool, u: string) returns (digits: string, rest: string)
    requires ScanInt(minus, u).Some?
    ensures digits != [] && AllDigits(digits) && Ends(rest) && u == digits + rest
    ensures ScanInt(minus, u).value.0 == if minus then -(DigitsValue(digits) as int) else DigitsValue(digits)
    ensures Int64(ScanInt(minus, u).value.0)
  {
    digits, rest := u[..DigitRun(u)], u[DigitRun(u)..];
    hide DigitRun, DigitsValue;
  }

  lemma SignedForm(s: string) returns (n: Numeral, rest: string)
    requires ScanSigned(s).Some?
    ensures Readable(n) && Ends(rest) && s == Shown(n) + rest
    ensures Int64(ValueOf(n)) && ScanSigned(s).value.0 == ValueOf(n)
  {
    hide SkipBlanks, DigitRun, DigitsValue, ScanInt, AllBlanks;
    var b := SkippedBlanks(s);
    var sign, u := SignTaken(SkipBlanks(s));
    assert ScanSigned(s) == ScanInt(sign == "-", u);
    var digits;
    digits, rest := IntForm(sign == "-", u);
    n := Numeral(b, sign, digits);
    Regroup(b, sign, digits, rest);
    assert Shown(n) + rest == b + (sign + (digits + rest));
  }

  lemma Regroup(a: string, b: string, c: string, d: string)
    ensures a + (b + c) + d == a + (b + (c + d))
  {
  }

  lemma SignTaken(t: string) returns (sign: string, u: string)
    ensures t == sign + u && sign in {"", "+", "-"}
    ensures (sign == "-" <==> t != [] && t[0] == '-') && (sign == "+" <==> t != [] && t[0] == '+')
    ensures u == if t != [] && (t[0] == '-' || t[0] == '+') then t[1..] else t
  {
    sign, u := "", t;
    if t != [] && t[0] == '-' {
      sign, u := "-", t[1..];
    } else if t != [] && t[0] == '+' {
      sign, u := "+", t[1..];
    }
  }

  // ---------------------------------------------------------------- the fields

  function VersionText(n: Numeral, rest: string): string {
    "v=" + (Shown(n) + rest)
  }

  function ParamsText(m: Numeral, t: Numeral, p: Numeral, rest: string): string {
    "m=" + (Shown(m) + (",t=" + (Shown(t) + (",p=" + (Shown(p) + rest)))))
  }

  lemma LiteralForm(s: string, literal: string)
    requires ScanLiteral(s, literal).Some?
    ensures s == literal + ScanLiteral(s, literal).value
  {
  }

  lemma VersionRead(n: Numeral, rest: string)
    requires Readable(n) && Ends(rest)
    ensures ScanVersion(VersionText(n, rest)) == if Int64(ValueOf(n)) then Some(ValueOf(n)) else None
  {
    hide ScanSigned, Shown;
    LiteralThen("v=", Shown(n) + rest);
    SignedRead(n, rest);
  }

  lemma VersionForm(s: string) returns (n: Numeral, rest: string)
    requires ScanVersion(s).Some?
    ensures Readable(n) && Ends(rest) && s == VersionText(n, rest) && ScanVersion(s) == Some(ValueOf(n))
    ensures NoDollar(s) ==> NoDollar(rest)
  {
    hide ScanSigned, Shown;
    LiteralForm(s, "v=");
    n, rest := SignedForm(ScanLiteral(s, "v=").value);
    assert '$' in rest ==> '$' in Shown(n) + rest;
  }

  lemma ParamsRead(m: Numeral, t: Numeral, p: Numeral, rest: string)
    requires Fits(m, UINT32) && Fits(t, UINT32) && Fits(p, UINT8) && Ends(rest)
    ensures ScanParams(ParamsText(m, t, p, rest)) == Some((ValueOf(m), ValueOf(t), ValueOf(p)))
  {
    hide ScanUnsigned, Shown, ValueOf, ScanLiteral;
    var afterT := Shown(t) + (",p=" + (Shown(p) + rest));
    LiteralThen("m=", Shown(m) + (",t=" + afterT));
    UnsignedRead(m, ",t=" + afterT, UINT32);
    LiteralThen(",t=", afterT);
    UnsignedRead(t, ",p=" + (Shown(p) + rest), UINT32);
    LiteralThen(",p=", Shown(p) + rest);
    UnsignedRead(p, rest, UINT8);
  }

  lemma ParamsForm(s: string) returns (m: Numeral, t: Numeral, p: Numeral, rest: string)
    requires ScanParams(s).Some?
    ensures Fits(m, UINT32) && Fits(t, UINT32) && Fits(p, UINT8) && Ends(rest)
    ensures s == ParamsText(m, t, p, rest) && ScanParams(s) == Some((ValueOf(m), ValueOf(t), ValueOf(p)))
    ensures NoDollar(s) ==> NoDollar(rest)
  {
    hide ScanUnsigned, Shown, ValueOf, ScanLiteral;
    var afterM, afterT;
    LiteralForm(s, "m=");
    m, afterM := UnsignedForm(ScanLiteral(s, "m=").value, UINT32);
    LiteralForm(afterM, ",t=");
    t, afterT := UnsignedForm(ScanLiteral(afterM, ",t=").value, UINT32);
    LiteralForm(afterT, ",p=");
    p, rest := UnsignedForm(ScanLiteral(afterT, ",p=").value, UINT8);
    assert '$' in rest ==> '$' in afterT;
    assert '$' in afterT ==> '$' in afterM;
    assert '$' in afterM ==> '$' in s;
  }

  // ---------------------------------------------------------------- six parts

  /** A text with a separator in it: its first part, and the rest split in turn. */
  lemma {:induction false} SplitFirst(s: string, sep: char) returns (head: string, rest: string)
    requires |Split(s, sep)| > 1
    ensures s == head + [sep] + rest && sep !in head && Split(s, sep) == [head] + Split(rest, sep)
  {
    if s[0] == sep {
      head, rest := "", s[1..];
      assert s == [sep] + rest;
    } else {
      var h;
      h, rest := SplitFirst(s[1..], sep);
      head := [s[0]] + h;
      assert s == [s[0]] + s[1..];
    }
  }

  lemma {:induction false} SplitOnce(s: string, sep: char)
    requires |Split(s, sep)| == 1
    ensures Split(s, sep) == [s] && sep !in s
  {
    if s != [] {
      SplitOnce(s[1..], sep);
      assert s == [s[0]] + s[1..];
    }
  }

  function Fields(a: string, b: string, c: string, d: string, e: string, f: string): string {
    a + "$" + b + "$" + c + "$" + d + "$" + e + "$" + f
  }

  lemma FieldsSplit(a: string, b: string, c: string, d: string, e: string, f: string)
    requires NoDollar(a) && NoDollar(b) && NoDollar(c) && NoDollar(d) && NoDollar(e) && NoDollar(f)
    ensures Split(Fields(a, b, c, d, e, f), '$') == [a, b, c, d, e, f]
  {
    SixParts(a, b, c, d, e, f);
  }

  lemma SixFields(s: string) returns (a: string, b: string, c: string, d: string, e: string, f: string)
    requires |Split(s, '$')| == 6
    ensures s == Fields(a, b, c, d, e, f) && Split(s, '$') == [a, b, c, d, e, f]
    ensures NoDollar(a) && NoDollar(b) && NoDollar(c) && NoDollar(d) && NoDollar(e) && NoDollar(f)
  {
    hide Split;
    var r1, r2, r3, r4;
    a, r1 := SplitFirst(s, '$');
    b, r2 := SplitFirst(r1, '$');
    c, r3 := SplitFirst(r2, '$');
    d, r4 := SplitFirst(r3, '$');
    e, f := SplitFirst(r4, '$');
    SplitOnce(f, '$');
    assert r3 == d + "$" + (e + "$" + f);
    assert r2 == c + "$" + (d + "$" + (e + "$" + f));
    assert r1 == b + "$" + (c + "$" + (d + "$" + (e + "$" + f)));
    assert s == a + "$" + (b + "$" + (c + "$" + (d + "$" + (e + "$" + f))));
  }

  // ---------------------------------------------------------------- the whole text

  /** A text that could be accepted: numerals, free text after two of them, and base64 at the end. */
  datatype Written = Written(
    start: string, version: Numeral, afterVersion: string, memory: Numeral, iterations: Numeral, parallelism: Numeral,
    afterParams: string, salt: string, hash: string)

  predicate Legible(w: Written) {
    && NoDollar(w.start) && Readable(w.version) && Ends(w.afterVersion) && NoDollar(w.afterVersion)
    && Fits(w.memory, UINT32) && Fits(w.iterations, UINT32) && Fits(w.parallelism, UINT8)
    && Ends(w.afterParams) && NoDollar(w.afterParams)
    && Base64.Decode(w.salt).Some? && Base64.Decode(w.hash).Some?
  }

  function TextOf(w: Written): string {
    Fields(w.start, "argon2id", VersionText(w.version, w.afterVersion),
           ParamsText(w.memory, w.iterations, w.parallelism, w.afterParams), w.salt, w.hash)
  }

  function Meaning(w: Written): Decoded
    requires Legible(w)
  {
    Assembled((ValueOf(w.memory), ValueOf(w.iterations), ValueOf(w.parallelism)), Base64.Decode(w.salt).value,
              Base64.Decode(w.hash).value)
  }

  lemma NumeralHasNoDollar(n: Numeral)
    requires Readable(n)
    ensures NoDollar(Shown(n))
  {
  }

  lemma FieldsHaveNoDollar(w: Written)
    requires Legible(w)
    ensures NoDollar(VersionText(w.version, w.afterVersion))
    ensures NoDollar(ParamsText(w.memory, w.iterations, w.parallelism, w.afterParams))
    ensures NoDollar(w.salt) && NoDollar(w.hash)
  {
    NumeralHasNoDollar(w.version);
    NumeralHasNoDollar(w.memory);
    NumeralHasNoDollar(w.iterations);
    NumeralHasNoDollar(w.parallelism);
    Base64.DecodesIff(w.salt);
    Base64.DecodesIff(w.hash);
    hide Shown;
  }

  /** What decoding a legible text gives: what it says if its version is 19, and the fitting error if not. */
  lemma LegibleText(w: Written)
    requires Legible(w)
    ensures Decode(TextOf(w))
         == if !Int64(ValueOf(w.version)) then Err(BadVersion)
            else if ValueOf(w.version) != 19 then Err(UnsupportedVersion)
            else Ok(Meaning(w))
  {
    hide VersionText, ParamsText, Fields, ScanVersion, ScanParams, Shown, ValueOf, Base64.Decode;
    FieldsHaveNoDollar(w);
    FieldsSplit(w.start, "argon2id", VersionText(w.version, w.afterVersion),
                ParamsText(w.memory, w.iterations, w.parallelism, w.afterParams), w.salt, w.hash);
    VersionRead(w.version, w.afterVersion);
    ParamsRead(w.memory, w.iterations, w.parallelism, w.afterParams);
  }

  lemma AcceptedIsLegible(encoded: string) returns (w: Written)
    requires Decode(encoded).Ok?
    ensures Legible(w) && ValueOf(w.version) == 19 && TextOf(w) == encoded
  {
    hide VersionText, ParamsText, Fields, ScanVersion, ScanParams, Shown, Base64.Decode, Split, Fits, NoDollar;
    var a, b, c, d, e, f := SixFields(encoded);
    var n, afterVersion := VersionForm(c);
    var m, t, p, afterParams := ParamsForm(d);
    w := Written(a, n, afterVersion, m, t, p, afterParams, e, f);
    assert b == "argon2id";
  }

  /** The decoder accepts exactly the legible texts of version 19, and reads them as what they say. */
  lemma AcceptedTexts(encoded: string, d: Decoded)
    ensures Decode(encoded) == Ok(d) <==>
              exists w {:trigger TextOf(w)} ::
                Legible(w) && ValueOf(w.version) == 19 && TextOf(w) == encoded && Meaning(w) == d
  {
    hide TextOf, Meaning, ValueOf, Decode;
    if Decode(encoded) == Ok(d) {
      var w := AcceptedIsLegible(encoded);
      LegibleText(w);
      assert TextOf(w) == encoded;
    }
    forall w | Legible(w) && ValueOf(w.version) == 19 && TextOf(w) == encoded && Meaning(w) == d
      ensures Decode(encoded) == Ok(d)
    {
      LegibleText(w);
    }
  }

  /** Another variant is refused as such, whatever else the text says. */
  lemma OtherVariantIsRefused(a: string, b: string, c: string, d: string, e: string, f: string)
    requires NoDollar(a) && NoDollar(b) && NoDollar(c) && NoDollar(d) && NoDollar(e) && NoDollar(f)
    ensures Decode(Fields(a, b, c, d, e, f)) == Err(UnsupportedVariant) <==> b != "argon2id"
  {
    FieldsSplit(a, b, c, d, e, f);
    hide Fields, ScanVersion, ScanParams, Base64.Decode;
  }
}
