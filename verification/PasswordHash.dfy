/**
  Argon2id password hashes: printing, parsing and verifying (web_register_api.go:423-553).  The key
  derivation itself (RFC 9106) is a parameter.
 */
module PasswordHash {
  import opened Common
  import opened Text
  import Base64

  const VERSION := 19
  const UINT32 := 0x1_0000_0000
  const UINT8 := 0x100

  datatype Params = Params(memory: nat, iterations: nat, parallelism: nat, saltLength: nat, keyLength: nat)

  datatype Decoded = Decoded(params: Params, salt: string, hash: string)

  datatype Failure = BadFormat | UnsupportedVariant | BadVersion | UnsupportedVersion | BadParams | BadSalt | BadHash
                   | UnsupportedHash

  predicate InRange(p: Params) {
    p.memory < UINT32 && p.iterations < UINT32 && p.parallelism < UINT8
  }

  /** What decoding can yield: printable ranges, bytes, and lengths taken from the decoded bytes. */
  predicate WellFormed(d: Decoded) {
    && InRange(d.params) && AllBytes(d.salt) && AllBytes(d.hash)
    && d.params.saltLength == |d.salt| % UINT32 && d.params.keyLength == |d.hash| % UINT32
  }

  const DefaultParams := Params(64 * 1024, 3, 2, 16, 32)

  // ---------------------------------------------------------------- decimal numbers

  predicate IsDigit(c: char) {
    '0' <= c <= '9'
  }

  function Decimal(n: nat): (s: string)
    ensures s != [] && forall i :: 0 <= i < |s| ==> IsDigit(s[i])
  {
    var last := ['0' + (n % 10) as char];
    if n < 10 then last else Decimal(n / 10) + last
  }

  function DigitValue(c: char): nat
    requires IsDigit(c)
  {
    c as int - '0' as int
  }

  function DigitsValue(s: string): nat
    requires forall i :: 0 <= i < |s| ==> IsDigit(s[i])
  {
    if s == [] then 0 else 10 * DigitsValue(s[..|s| - 1]) + DigitValue(s[|s| - 1])
  }

  lemma {:induction false} DecimalValue(n: nat)
    ensures DigitsValue(Decimal(n)) == n
  {
    if n >= 10 {
      DecimalValue(n / 10);
      assert Decimal(n)[..|Decimal(n)| - 1] == Decimal(n / 10);
    }
  }

  function DigitRun(s: string): (n: nat)
    ensures n <= |s| && forall i :: 0 <= i < n ==> IsDigit(s[i])
    ensures n < |s| ==> !IsDigit(s[n])
  {
    if s != [] && IsDigit(s[0]) then 1 + DigitRun(s[1..]) else 0
  }

  // ---------------------------------------------------------------- Sscanf

  /** A literal of the format has to be next in the input. */
  function ScanLiteral(s: string, literal: string): Option<string> {
    if |literal| <= |s| && s[..|literal|] == literal then Some(s[|literal|..]) else None
  }

  /** Spaces and tabs are skipped before a number; a line break is an error. */
  function SkipBlanks(s: string): string {
    if s != [] && IsSpace(s[0]) && s[0] != '\n' then SkipBlanks(s[1..]) else s
  }

  /** `%d` into an unsigned field that holds values below `limit`: the number and the rest of the input. */
  function ScanUnsigned(s: string, limit: nat): (r: Option<(nat, string)>)
    ensures r.Some? ==> r.value.0 < limit
  {
    var t := SkipBlanks(s);
    var n := DigitRun(t);
    if n == 0 || DigitsValue(t[..n]) >= limit then None else Some((DigitsValue(t[..n]), t[n..]))
  }

  /** `%d` into an int: an optional sign first. */
  function ScanSigned(s: string): Option<(int, string)> {
    var t := SkipBlanks(s);
    if t != [] && t[0] == '-' then ScanInt(true, t[1..])
    else if t != [] && t[0] == '+' then ScanInt(false, t[1..])
    else ScanInt(false, t)
  }

  function ScanInt(minus: bool, s: string): Option<(int, string)> {
    var n := DigitRun(s);
    if n == 0 then None
    else
      var v := DigitsValue(s[..n]);
      var x: int := if minus then -(v as int) else v;
      if -0x8000_0000_0000_0000 <= x < 0x8000_0000_0000_0000 then Some((x, s[n..])) else None
  }

  function ScanVersion(s: string): Option<int> {
    var a := ScanLiteral(s, "v=");
    if a.None? then None
    else
      var v := ScanSigned(a.value);
      if v.None? then None else Some(v.value.0)
  }

  /** "m=%d,t=%d,p=%d"; whatever follows the last number is not looked at. */
  function ScanParams(s: string): (r: Option<(nat, nat, nat)>)
    ensures r.Some? ==> r.value.0 < UINT32 && r.value.1 < UINT32 && r.value.2 < UINT8
  {
    var a := ScanLiteral(s, "m=");
    if a.None? then None else
    var m := ScanUnsigned(a.value, UINT32);
    if m.None? then None else
    var b := ScanLiteral(m.value.1, ",t=");
    if b.None? then None else
    var t := ScanUnsigned(b.value, UINT32);
    if t.None? then None else
    var c := ScanLiteral(t.value.1, ",p=");
    if c.None? then None else
    var p := ScanUnsigned(c.value, UINT8);
    if p.None? then None else Some((m.value.0, t.value.0, p.value.0))
  }

  // ---------------------------------------------------------------- the encoded form

  function ParamText(p: Params): string {
    "m=" + (Decimal(p.memory) + (",t=" + (Decimal(p.iterations) + (",p=" + Decimal(p.parallelism)))))
  }

  function Encode(p: Params, salt: string, hash: string): string
    requires AllBytes(salt) && AllBytes(hash)
  {
    "$argon2id$" + "v=" + Decimal(VERSION) + "$" + ParamText(p) + "$" + Base64.Encode(salt) + "$" + Base64.Encode(hash)
  }

  function Decode(encoded: string): (r: Result<Decoded, Failure>)
    ensures r.Ok? ==> WellFormed(r.value)
  {
    DecodeParts(Split(encoded, '$'))
  }

  function DecodeParts(parts: seq<string>): (r: Result<Decoded, Failure>)
    ensures r.Ok? ==> WellFormed(r.value)
  {
    if |parts| != 6 then Err(BadFormat)
    else if parts[1] != "argon2id" then Err(UnsupportedVariant)
    else
      var version := ScanVersion(parts[2]);
      if version.None? then Err(BadVersion)
      else if version.value != VERSION then Err(UnsupportedVersion)
      else
        var params := ScanParams(parts[3]);
        if params.None? then Err(BadParams)
        else
          var salt := Base64.Decode(parts[4]);
          if salt.None? then Err(BadSalt)
          else
            var hash := Base64.Decode(parts[5]);
            if hash.None? then Err(BadHash) else Ok(Assembled(params.value, salt.value, hash.value))
  }

  function Assembled(params: (nat, nat, nat), salt: string, hash: string): Decoded {
    Decoded(Params(params.0, params.1, params.2, |salt| % UINT32, |hash| % UINT32), salt, hash)
  }

  // ---------------------------------------------------------------- round trip

  lemma {:induction false} DigitRunStops(digits: string, rest: string)
    requires forall i :: 0 <= i < |digits| ==> IsDigit(digits[i])
    requires rest != [] ==> !IsDigit(rest[0])
    ensures DigitRun(digits + rest) == |digits|
  {
    if digits == [] {
      assert digits + rest == rest;
    } else {
      assert (digits + rest)[1..] == digits[1..] + rest;
      DigitRunStops(digits[1..], rest);
    }
  }

  lemma ScanPrinted(n: nat, rest: string, limit: nat)
    requires n < limit && (rest != [] ==> !IsDigit(rest[0]))
    ensures ScanUnsigned(Decimal(n) + rest, limit) == Some((n, rest))
  {
    var s := Decimal(n) + rest;
    assert s[0] == Decimal(n)[0] && SkipBlanks(s) == s;
    DigitRunStops(Decimal(n), rest);
    DecimalValue(n);
    assert s[..|Decimal(n)|] == Decimal(n) && s[|Decimal(n)|..] == rest;
  }

  lemma LiteralThen(literal: string, rest: string)
    ensures ScanLiteral(literal + rest, literal) == Some(rest)
  {
  }

  lemma ScanPrintedParams(p: Params)
    requires InRange(p)
    ensures ScanParams(ParamText(p)) == Some((p.memory, p.iterations, p.parallelism))
  {
    var afterT := Decimal(p.iterations) + (",p=" + Decimal(p.parallelism));
    var afterM := Decimal(p.memory) + (",t=" + afterT);
    LiteralThen("m=", afterM);
    ScanPrinted(p.memory, ",t=" + afterT, UINT32);
    LiteralThen(",t=", afterT);
    ScanPrinted(p.iterations, ",p=" + Decimal(p.parallelism), UINT32);
    LiteralThen(",p=", Decimal(p.parallelism));
    ScanPrinted(p.parallelism, "", UINT8);
    assert Decimal(p.parallelism) + "" == Decimal(p.parallelism);
  }

  lemma ScanPrintedVersion()
    ensures ScanVersion("v=" + Decimal(VERSION)) == Some(VERSION)
  {
    LiteralThen("v=", Decimal(VERSION));
    var s := Decimal(VERSION);
    assert SkipBlanks(s) == s;
    DigitRunStops(s, "");
    assert s + "" == s;
    DecimalValue(VERSION);
    assert s[..|s|] == s;
  }

  predicate NoDollar(s: string) {
    '$' !in s
  }

  lemma Base64HasNoDollar(s: string)
    requires AllBytes(s)
    ensures NoDollar(Base64.Encode(s))
  {
    var e := Base64.Encode(s);
    forall i | 0 <= i < |e|
      ensures e[i] != '$'
    {
      assert Base64.Value64(e[i]).Some?;
    }
  }

  lemma DecimalHasNoDollar(n: nat)
    ensures NoDollar(Decimal(n))
  {
  }

  lemma ParamTextHasNoDollar(p: Params)
    ensures NoDollar(ParamText(p))
  {
    DecimalHasNoDollar(p.memory);
    DecimalHasNoDollar(p.iterations);
    DecimalHasNoDollar(p.parallelism);
    assert NoDollar(",p=" + Decimal(p.parallelism));
    assert NoDollar(Decimal(p.iterations) + (",p=" + Decimal(p.parallelism)));
    assert NoDollar(",t=" + (Decimal(p.iterations) + (",p=" + Decimal(p.parallelism))));
  }

  /** Five dollar signs make six parts. */
  lemma SixParts(a: string, b: string, c: string, d: string, e: string, f: string)
    requires NoDollar(a) && NoDollar(b) && NoDollar(c) && NoDollar(d) && NoDollar(e) && NoDollar(f)
    ensures Split(a + "$" + b + "$" + c + "$" + d + "$" + e + "$" + f, '$') == [a, b, c, d, e, f]
  {
    SplitAppend(a + "$" + b + "$" + c + "$" + d + "$" + e, '$', f);
    SplitAppend(a + "$" + b + "$" + c + "$" + d, '$', e);
    SplitAppend(a + "$" + b + "$" + c, '$', d);
    SplitAppend(a + "$" + b, '$', c);
    SplitAppend(a, '$', b);
    SplitPlain(a, '$');
    SplitPlain(b, '$'); SplitPlain(c, '$'); SplitPlain(d, '$'); SplitPlain(e, '$'); SplitPlain(f, '$');
  }

  lemma Opening(version: string)
    ensures "$argon2id$" + "v=" + version == "" + "$" + "argon2id" + "$" + ("v=" + version)
  {
    assert "$argon2id$" == "" + "$" + "argon2id" + "$";
  }

  lemma EncodedParts(p: Params, salt: string, hash: string)
    requires AllBytes(salt) && AllBytes(hash)
    ensures Split(Encode(p, salt, hash), '$')
         == ["", "argon2id", "v=" + Decimal(VERSION), ParamText(p), Base64.Encode(salt), Base64.Encode(hash)]
  {
    var v := "v=" + Decimal(VERSION);
    DecimalHasNoDollar(VERSION);
    assert NoDollar(v);
    ParamTextHasNoDollar(p);
    Base64HasNoDollar(salt);
    Base64HasNoDollar(hash);
    SixParts("", "argon2id", v, ParamText(p), Base64.Encode(salt), Base64.Encode(hash));
    Opening(Decimal(VERSION));
    hide Split, ParamText, Decimal, Base64.Encode, NoDollar;
    assert Encode(p, salt, hash)
        == "" + "$" + "argon2id" + "$" + v + "$" + ParamText(p) + "$" + Base64.Encode(salt) + "$" + Base64.Encode(hash);
  }

  lemma PartsRoundTrip(version: string, params: string, salt: string, hash: string, p: Params)
    requires AllBytes(salt) && AllBytes(hash)
    requires ScanVersion(version) == Some(VERSION)
    requires ScanParams(params) == Some((p.memory, p.iterations, p.parallelism))
    ensures DecodeParts(["", "argon2id", version, params, Base64.Encode(salt), Base64.Encode(hash)])
         == Ok(Assembled((p.memory, p.iterations, p.parallelism), salt, hash))
  {
    Base64.RoundTrip(salt);
    Base64.RoundTrip(hash);
  }

  /** Decoding an encoded hash gives back the same parameters, salt and hash, for every salt and hash. */
  lemma RoundTrip(p: Params, salt: string, hash: string)
    requires InRange(p) && AllBytes(salt) && AllBytes(hash)
    ensures Decode(Encode(p, salt, hash))
         == Ok(Decoded(p.(saltLength := |salt| % UINT32, keyLength := |hash| % UINT32), salt, hash))
  {
    EncodedParts(p, salt, hash);
    ScanPrintedVersion();
    ScanPrintedParams(p);
    PartsRoundTrip("v=" + Decimal(VERSION), ParamText(p), salt, hash, p);
  }

  /** Every accepted text has one normal form, and re-encoding reaches it in one step. */
  lemma NormalForm(encoded: string)
    requires Decode(encoded).Ok?
    ensures var d := Decode(encoded).value;
            Decode(Encode(d.params, d.salt, d.hash)) == Ok(d)
  {
    WellFormedRoundTrip(Decode(encoded).value);
  }

  lemma WellFormedRoundTrip(d: Decoded)
    requires WellFormed(d)
    ensures Decode(Encode(d.params, d.salt, d.hash)) == Ok(d)
  {
    RoundTrip(d.params, d.salt, d.hash);
  }

  // ---------------------------------------------------------------- passwords

  datatype Cost = Cost(iterations: nat, memory: nat, parallelism: nat)

  function Zeros(n: nat): (s: string)
    ensures |s| == n && AllBytes(s)
  {
    if n == 0 then [] else ['0'] + Zeros(n - 1)
  }

  /** (password, salt, cost, key length) to a key of that length. */
  type Kdf = f: (string, string, Cost, nat) -> string |
      forall password, salt, cost, n ::
        |f(password, salt, cost, n)| == n && AllBytes(f(password, salt, cost, n))
    witness (password: string, salt: string, cost: Cost, n: nat) => Zeros(n)

  function DeriveKey(kdf: Kdf, password: string, salt: string, p: Params): (key: string)
    ensures |key| == p.keyLength && AllBytes(key)
  {
    kdf(password, salt, Cost(p.iterations, p.memory, p.parallelism), p.keyLength)
  }

  /** `salt` is what the random source returned. */
  function Generate(kdf: Kdf, password: string, salt: string): string
    requires AllBytes(salt) && |salt| == DefaultParams.saltLength
  {
    Encode(DefaultParams, salt, DeriveKey(kdf, password, salt, DefaultParams))
  }

  function Verify(kdf: Kdf, password: string, encoded: string): Result<bool, Failure> {
    match Decode(encoded)
    case Err(e) => Err(e)
    case Ok(d) => Ok(DeriveKey(kdf, password, d.salt, d.params) == d.hash)
  }

  function VerifyPasswordHash(kdf: Kdf, password: string, stored: string): Result<bool, Failure> {
    var s := TrimSpace(stored);
    if ScanLiteral(s, "$argon2id$").None? then Err(UnsupportedHash) else Verify(kdf, password, s)
  }

  /** The text of a hash, with its parameters in decimal. */
  lemma TextIs(p: Params, salt: string, hash: string)
    requires AllBytes(salt) && AllBytes(hash)
    ensures Encode(p, salt, hash)
         == "$argon2id$" + "v=" + "19" + "$"
            + ("m=" + (Decimal(p.memory) + (",t=" + (Decimal(p.iterations) + (",p=" + Decimal(p.parallelism))))))
            + "$" + Base64.Encode(salt) + "$" + Base64.Encode(hash)
  {
    VersionText();
    hide Decimal, Base64.Encode;
  }

  lemma VersionText()
    ensures Decimal(VERSION) == "19"
  {
    assert Decimal(1) == "1";
  }

  lemma EncodedIsSolid(p: Params, salt: string, hash: string)
    requires AllBytes(salt) && AllBytes(hash)
    ensures Solid(Encode(p, salt, hash)) && ScanLiteral(Encode(p, salt, hash), "$argon2id$").Some?
  {
    var e, b := Encode(p, salt, hash), Base64.Encode(hash);
    if b != [] {
      assert Base64.Value64(b[|b| - 1]).Some?;
      assert e[|e| - 1] == b[|b| - 1];
    } else {
      assert e[|e| - 1] == '$';
    }
    assert e[..10] == "$argon2id$";
  }

  /** The verdict on any encoded hash: the key of the attempt under the encoded salt and parameters is that hash. */
  lemma VerdictIs(kdf: Kdf, p: Params, salt: string, hash: string, attempt: string)
    requires InRange(p) && AllBytes(salt) && AllBytes(hash) && |hash| < UINT32
    ensures VerifyPasswordHash(kdf, attempt, Encode(p, salt, hash))
         == Ok(kdf(attempt, salt, Cost(p.iterations, p.memory, p.parallelism), |hash|) == hash)
  {
    hide *;
    EncodedIsSolid(p, salt, hash);
    TrimSolid(Encode(p, salt, hash));
    RoundTrip(p, salt, hash);
    VerdictOnDecoded(kdf, attempt, Encode(p, salt, hash),
                     Decoded(p.(saltLength := |salt| % UINT32, keyLength := |hash| % UINT32), salt, hash));
    assert |hash| % UINT32 == |hash|;
  }

  /** White space around a stored hash makes no difference. */
  lemma WhiteSpaceAround(kdf: Kdf, attempt: string, before: string, stored: string, after: string)
    requires Spaces(before) && Spaces(after)
    ensures VerifyPasswordHash(kdf, attempt, before + stored + after) == VerifyPasswordHash(kdf, attempt, stored)
  {
    var a, b := HasCore(stored);
    var t := TrimSpace(stored);
    hide TrimSpace;
    assert before + (a + t + b) + after == (before + a) + t + (b + after);
    assert Core(before + stored + after, before + a, t, b + after);
    TrimIsCore(before + stored + after, before + a, t, b + after);
  }

  lemma VerdictOnDecoded(kdf: Kdf, attempt: string, text: string, d: Decoded)
    requires TrimSpace(text) == text && ScanLiteral(text, "$argon2id$").Some? && Decode(text) == Ok(d)
    ensures VerifyPasswordHash(kdf, attempt, text)
         == Ok(kdf(attempt, d.salt, Cost(d.params.iterations, d.params.memory, d.params.parallelism),
                   d.params.keyLength) == d.hash)
  {
    hide TrimSpace, ScanLiteral, Decode;
  }

  /** A fresh hash accepts an attempt exactly when its key, of 32 bytes under the default cost, is the password's. */
  lemma FreshHashAccepts(kdf: Kdf, password: string, salt: string, attempt: string)
    requires AllBytes(salt) && |salt| == 16
    ensures VerifyPasswordHash(kdf, attempt, Generate(kdf, password, salt))
         == Ok(kdf(attempt, salt, Cost(3, 65536, 2), 32) == kdf(password, salt, Cost(3, 65536, 2), 32))
    ensures VerifyPasswordHash(kdf, password, Generate(kdf, password, salt)) == Ok(true)
  {
    VerdictIs(kdf, DefaultParams, salt, kdf(password, salt, Cost(3, 65536, 2), 32), attempt);
    VerdictIs(kdf, DefaultParams, salt, kdf(password, salt, Cost(3, 65536, 2), 32), password);
  }

  /** Where the derivation does not collide, every other password is refused. */
  lemma WrongPasswordIsRefused(kdf: Kdf, password: string, salt: string, attempt: string)
    requires AllBytes(salt) && |salt| == 16
    requires kdf(attempt, salt, Cost(3, 65536, 2), 32) == kdf(password, salt, Cost(3, 65536, 2), 32) ==>
               attempt == password
    ensures VerifyPasswordHash(kdf, attempt, Generate(kdf, password, salt)) == Ok(attempt == password)
  {
    FreshHashAccepts(kdf, password, salt, attempt);
  }
}
