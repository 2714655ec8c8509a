/**
 The password record of security.py. PBKDF2 (section 5.2 of RFC 8018) and UTF-8 are opaque
 functions; base64url (section 5 of RFC 4648) and decimal numbers are modelled.
 */
module Password {
  import opened Wrappers

  type Byte = x: int | 0 <= x < 256
  type Sextet = x: int | 0 <= x < 64
  type Bytes = seq<Byte>

  // ---------- base64url ----------

  function Digit(v: Sextet): char {
    if v < 26 then (v + 65) as char
    else if v < 52 then (v + 71) as char
    else if v < 62 then (v - 4) as char
    else if v == 62 then '-'
    else '_'
  }

  function Value(c: char): Option<Sextet> {
    if 'A' <= c <= 'Z' then Some(c as int - 65)
    else if 'a' <= c <= 'z' then Some(c as int - 71)
    else if '0' <= c <= '9' then Some(c as int + 4)
    else if c == '-' then Some(62)
    else if c == '_' then Some(63)
    else None
  }

  lemma DigitValue(v: Sextet)
    ensures Value(Digit(v)) == Some(v) && Digit(v) != '=' && Digit(v) != '$'
  {
  }

  /** The alphabet of base64url (table 2 of RFC 4648): A to Z, a to z, 0 to 9, then - and _. */
  lemma AlphabetExact(v: Sextet)
    ensures Digit(0) == 'A' && Digit(25) == 'Z' && Digit(26) == 'a' && Digit(51) == 'z'
    ensures Digit(52) == '0' && Digit(61) == '9' && Digit(62) == '-' && Digit(63) == '_'
    ensures v < 61 && v != 25 && v != 51 ==> Digit(v + 1) as int == Digit(v) as int + 1
  {
  }

  /** The four digits of three bytes. */
  function Group(x: Byte, y: Byte, z: Byte): (s: string)
    ensures |s| == 4
  {
    [Digit(x / 4), Digit(x % 4 * 16 + y / 16), Digit(y % 16 * 4 + z / 64), Digit(z % 64)]
  }

  /** urlsafe_b64encode, with its padding. */
  function EncodePadded(raw: Bytes): string {
    if raw == [] then ""
    else if |raw| == 1 then Group(raw[0], 0, 0)[..2] + "=="
    else if |raw| == 2 then Group(raw[0], raw[1], 0)[..3] + "="
    else Group(raw[0], raw[1], raw[2]) + EncodePadded(raw[3..])
  }

  /** rstrip("="). */
  function StripPadding(s: string): string {
    if s != "" && s[|s| - 1] == '=' then StripPadding(s[..|s| - 1]) else s
  }

  function Encode(raw: Bytes): string {
    StripPadding(EncodePadded(raw))
  }

  function Repeat(c: char, n: nat): string {
    seq(n, _ => c)
  }

  /** The first byte of a group, from its first two sextets, and so on. */
  function First(a: Sextet, b: Sextet): Byte {
    a * 4 + b / 16
  }

  function Second(b: Sextet, c: Sextet): Byte {
    b % 16 * 16 + c / 4
  }

  function Third(c: Sextet, d: Sextet): Byte {
    c % 4 * 64 + d
  }

  /** urlsafe_b64decode on padded text over the alphabet; anything else is a failure here. */
  function DecodePadded(s: string): Option<Bytes> {
    if s == "" then Some([])
    else if |s| < 4 then None
    else
      var a, b, c, d := Value(s[0]), Value(s[1]), Value(s[2]), Value(s[3]);
      if a.None? || b.None? then None
      else if c.None? then
        if s[2..] == "==" then Some([First(a.value, b.value)]) else None
      else if d.None? then
        if s[3..] == "=" then Some([First(a.value, b.value), Second(b.value, c.value)]) else None
      else
        match DecodePadded(s[4..])
        case None => None
        case Some(rest) => Some([First(a.value, b.value), Second(b.value, c.value), Third(c.value, d.value)] + rest)
  }

  function Decode(data: string): Option<Bytes> {
    DecodePadded(data + Repeat('=', (4 - |data| % 4) % 4))
  }

  /** A group writes the 24 bits of three bytes, six at a time, most significant first. */
  lemma GroupExact(x: Byte, y: Byte, z: Byte)
    ensures exists a: Sextet, b: Sextet, c: Sextet, d: Sextet ::
              && Group(x, y, z) == [Digit(a), Digit(b), Digit(c), Digit(d)]
              && ((a * 64 + b) * 64 + c) * 64 + d == (x * 256 + y) * 256 + z
  {
    var a, b, c, d: Sextet := x / 4, x % 4 * 16 + y / 16, y % 16 * 4 + z / 64, z % 64;
    hide Digit;
    assert Group(x, y, z) == [Digit(a), Digit(b), Digit(c), Digit(d)];
    Packed(x, y, z);
  }

  lemma Packed(x: Byte, y: Byte, z: Byte)
    ensures ((x / 4 * 64 + (x % 4 * 16 + y / 16)) * 64 + (y % 16 * 4 + z / 64)) * 64 + z % 64
            == (x * 256 + y) * 256 + z
  {
  }

  lemma GroupBytes(x: Byte, y: Byte, z: Byte)
    ensures First(x / 4, x % 4 * 16 + y / 16) == x
    ensures Second(x % 4 * 16 + y / 16, y % 16 * 4 + z / 64) == y
    ensures Third(y % 16 * 4 + z / 64, z % 64) == z
  {
  }

  lemma GroupDigits(x: Byte, y: Byte, z: Byte)
    ensures var g := Group(x, y, z);
            && Value(g[0]) == Some(x / 4) && Value(g[1]) == Some(x % 4 * 16 + y / 16)
            && Value(g[2]) == Some(y % 16 * 4 + z / 64) && Value(g[3]) == Some(z % 64)
            && Clean(g)
  {
    DigitValue(x / 4);
    DigitValue(x % 4 * 16 + y / 16);
    DigitValue(y % 16 * 4 + z / 64);
    DigitValue(z % 64);
  }

  lemma DecodeQuad(p: char, q: char, a: Sextet, b: Sextet)
    requires Value(p) == Some(a) && Value(q) == Some(b)
    ensures DecodePadded([p, q, '=', '=']) == Some([First(a, b)])
    ensures forall r: char, c: Sextet :: Value(r) == Some(c) ==>
              DecodePadded([p, q, r, '=']) == Some([First(a, b), Second(b, c)])
  {
    var s := [p, q, '=', '='];
    assert s[2..] == "==";
    forall r: char, c: Sextet | Value(r) == Some(c)
      ensures DecodePadded([p, q, r, '=']) == Some([First(a, b), Second(b, c)])
    {
      assert [p, q, r, '='][3..] == "=";
    }
  }

  lemma DecodeOne(x: Byte)
    ensures DecodePadded(Group(x, 0, 0)[..2] + "==") == Some([x])
  {
    var g := Group(x, 0, 0);
    GroupDigits(x, 0, 0);
    GroupBytes(x, 0, 0);
    DecodeQuad(g[0], g[1], x / 4, x % 4 * 16 + 0 / 16);
    assert g[..2] + "==" == [g[0], g[1], '=', '='];
  }

  lemma DecodeTwo(x: Byte, y: Byte)
    ensures DecodePadded(Group(x, y, 0)[..3] + "=") == Some([x, y])
  {
    var g := Group(x, y, 0);
    GroupDigits(x, y, 0);
    GroupBytes(x, y, 0);
    DecodeQuad(g[0], g[1], x / 4, x % 4 * 16 + y / 16);
    assert g[..3] + "=" == [g[0], g[1], g[2], '='];
  }

  lemma DecodeThree(x: Byte, y: Byte, z: Byte, t: string, rest: Bytes)
    requires DecodePadded(t) == Some(rest)
    ensures DecodePadded(Group(x, y, z) + t) == Some([x, y, z] + rest)
  {
    var g := Group(x, y, z);
    var s := g + t;
    GroupDigits(x, y, z);
    GroupBytes(x, y, z);
    assert s[4..] == t && s[0] == g[0] && s[1] == g[1] && s[2] == g[2] && s[3] == g[3];
  }

  lemma {:induction false} DecodeEncodePadded(raw: Bytes)
    ensures DecodePadded(EncodePadded(raw)) == Some(raw)
  {
    if |raw| == 1 {
      DecodeOne(raw[0]);
      assert raw == [raw[0]];
    } else if |raw| == 2 {
      DecodeTwo(raw[0], raw[1]);
      assert raw == [raw[0], raw[1]];
    } else if |raw| >= 3 {
      DecodeEncodePadded(raw[3..]);
      DecodeThree(raw[0], raw[1], raw[2], EncodePadded(raw[3..]), raw[3..]);
      assert raw == [raw[0], raw[1], raw[2]] + raw[3..];
    }
  }

  /** Text without padding or separator signs. */
  predicate Clean(s: string) {
    forall i :: 0 <= i < |s| ==> s[i] != '=' && s[i] != '$'
  }

  /** The encoding is clean text followed by exactly the padding that completes a group of four. */
  lemma {:induction false} EncodingShape(raw: Bytes) returns (body: string, pad: nat)
    ensures EncodePadded(raw) == body + Repeat('=', pad) && Clean(body)
    ensures pad <= 2 && pad == (4 - |body| % 4) % 4
  {
    if |raw| == 0 {
      body, pad := "", 0;
    } else if |raw| == 1 {
      GroupDigits(raw[0], 0, 0);
      body, pad := Group(raw[0], 0, 0)[..2], 2;
      assert Repeat('=', 2) == "==";
    } else if |raw| == 2 {
      GroupDigits(raw[0], raw[1], 0);
      body, pad := Group(raw[0], raw[1], 0)[..3], 1;
      assert Repeat('=', 1) == "=";
    } else {
      GroupDigits(raw[0], raw[1], raw[2]);
      var g := Group(raw[0], raw[1], raw[2]);
      var rest, p := EncodingShape(raw[3..]);
      body, pad := g + rest, p;
      assert g + (rest + Repeat('=', p)) == (g + rest) + Repeat('=', p);
      CleanAppend(g, rest);
      GroupOfFour(|rest|);
    }
  }

  lemma CleanAppend(a: string, b: string)
    requires Clean(a) && Clean(b)
    ensures Clean(a + b)
  {
  }

  lemma GroupOfFour(n: nat)
    ensures (4 - (4 + n) % 4) % 4 == (4 - n % 4) % 4
  {
  }

  lemma {:induction false} StripRepeat(body: string, pad: nat)
    requires Clean(body)
    ensures StripPadding(body + Repeat('=', pad)) == body
    decreases pad
  {
    var s := body + Repeat('=', pad);
    if pad == 0 {
      assert s == body;
    } else {
      assert s[..|s| - 1] == body + Repeat('=', pad - 1);
      StripRepeat(body, pad - 1);
    }
  }

  /** Unpadded base64url decodes to the original bytes for every length, and contains no separator. */
  lemma Base64RoundTrip(raw: Bytes)
    ensures Decode(Encode(raw)) == Some(raw) && Clean(Encode(raw))
  {
    var body, pad := EncodingShape(raw);
    StripRepeat(body, pad);
    assert Encode(raw) == body;
    assert Decode(body) == DecodePadded(EncodePadded(raw));
    DecodeEncodePadded(raw);
  }

  lemma EncodeIs(raw: Bytes, body: string, pad: nat)
    requires EncodePadded(raw) == body + Repeat('=', pad) && Clean(body)
    ensures Encode(raw) == body
  {
    StripRepeat(body, pad);
  }

  lemma Longer(raw: Bytes, body: string, pad: nat)
    requires EncodePadded(raw) == body + Repeat('=', pad)
    ensures EncodePadded([102, 111, 111] + raw) == ("Zm9v" + body) + Repeat('=', pad)
  {
    assert ([102, 111, 111] + raw)[3..] == raw;
    assert Group(102, 111, 111) == "Zm9v";
    assert "Zm9v" + (body + Repeat('=', pad)) == ("Zm9v" + body) + Repeat('=', pad);
  }

  lemma ShortVectors()
    ensures EncodePadded([]) == "" + Repeat('=', 0)
    ensures EncodePadded([102]) == "Zg" + Repeat('=', 2)
    ensures EncodePadded([102, 111]) == "Zm8" + Repeat('=', 1)
  {
    assert Group(102, 0, 0)[..2] == "Zg" && Group(102, 111, 0)[..3] == "Zm8";
    assert Repeat('=', 2) == "==" && Repeat('=', 1) == "=" && Repeat('=', 0) == "";
  }

  lemma TailVectors()
    ensures EncodePadded([98]) == "Yg" + Repeat('=', 2)
    ensures EncodePadded([98, 97]) == "YmE" + Repeat('=', 1)
    ensures EncodePadded([98, 97, 114]) == "YmFy" + Repeat('=', 0)
  {
    assert Group(98, 0, 0)[..2] == "Yg" && Group(98, 97, 0)[..3] == "YmE" && Group(98, 97, 114) == "YmFy";
    assert Repeat('=', 2) == "==" && Repeat('=', 1) == "=" && Repeat('=', 0) == "";
    var raw: Bytes := [98, 97, 114];
    assert raw[3..] == [];
    assert EncodePadded(raw) == Group(98, 97, 114) + EncodePadded(raw[3..]);
  }

  lemma LongVector(tail: Bytes, body: string, pad: nat)
    requires EncodePadded(tail) == body + Repeat('=', pad) && Clean(body)
    ensures Encode([102, 111, 111] + tail) == "Zm9v" + body
  {
    Longer(tail, body, pad);
    CleanAppend("Zm9v", body);
    EncodeIs([102, 111, 111] + tail, "Zm9v" + body, pad);
  }

  /** The test vectors of section 10 of RFC 4648, without padding. */
  lemma Rfc4648Vectors()
    ensures Encode([]) == "" && Encode([102]) == "Zg" && Encode([102, 111]) == "Zm8"
    ensures Encode([102, 111, 111] + []) == "Zm9v" + "" && Encode([102, 111, 111] + [98]) == "Zm9v" + "Yg"
    ensures Encode([102, 111, 111] + [98, 97]) == "Zm9v" + "YmE"
    ensures Encode([102, 111, 111] + [98, 97, 114]) == "Zm9v" + "YmFy"
  {
    ShortVectors();
    TailVectors();
    hide Encode, EncodePadded, Repeat;
    EncodeIs([], "", 0);
    EncodeIs([102], "Zg", 2);
    EncodeIs([102, 111], "Zm8", 1);
    LongVector([], "", 0);
    LongVector([98], "Yg", 2);
    LongVector([98, 97], "YmE", 1);
    LongVector([98, 97, 114], "YmFy", 0);
  }

  // ---------- Decimal numbers ----------

  function PrintNat(n: nat): string {
    if n < 10 then [(n + 48) as char] else PrintNat(n / 10) + [(n % 10 + 48) as char]
  }

  /** int(s) on a non-empty run of decimal digits. */
  function ParseNat(s: string): Option<nat> {
    if s == "" then None
    else
      var last := s[|s| - 1];
      if !('0' <= last <= '9') then None
      else if |s| == 1 then Some(last as int - 48)
      else
        match ParseNat(s[..|s| - 1])
        case None => None
        case Some(n) => Some(10 * n + (last as int - 48))
  }

  lemma {:induction false} NatRoundTrip(n: nat)
    ensures ParseNat(PrintNat(n)) == Some(n) && Clean(PrintNat(n)) && PrintNat(n) != ""
  {
    var s := PrintNat(n);
    if n >= 10 {
      NatRoundTrip(n / 10);
      assert s[..|s| - 1] == PrintNat(n / 10);
    }
  }

  /** Decimal notation: one digit below ten, and ten times a number plus a digit has that digit more on the right. */
  lemma DecimalExact(n: nat, d: nat)
    requires d < 10
    ensures PrintNat(d) == ["0123456789"[d]]
    ensures n > 0 ==> PrintNat(10 * n + d) == PrintNat(n) + ["0123456789"[d]]
  {
  }

  // ---------- The record ----------

  /** The text before the first separator, and the text after it. */
  function Cut(s: string): Option<(string, string)> {
    if s == "" then None
    else if s[0] == '$' then Some(("", s[1..]))
    else
      match Cut(s[1..])
      case None => None
      case Some((a, b)) => Some(([s[0]] + a, b))
  }

  lemma {:induction false} CutJoined(a: string, b: string)
    requires Clean(a)
    ensures Cut(a + "$" + b) == Some((a, b))
  {
    var s := a + "$" + b;
    if a == "" {
      assert s[1..] == b;
    } else {
      assert s[1..] == a[1..] + "$" + b;
      CutJoined(a[1..], b);
      assert [a[0]] + a[1..] == a;
    }
  }

  datatype Fields = Fields(scheme: string, iterations: string, salt: string, dk: string)

  /** stored.split("$", 3), when it yields four parts. */
  function SplitRecord(stored: string): Option<Fields> {
    match Cut(stored)
    case None => None
    case Some((a, r1)) =>
      match Cut(r1)
      case None => None
      case Some((b, r2)) =>
        match Cut(r2)
        case None => None
        case Some((c, d)) => Some(Fields(a, b, c, d))
  }

  const SCHEME := "pbkdf2_sha256"

  /** The key derivation, with its output length as last argument, and the text encoding. */
  datatype Crypto = Crypto(kdf: (Bytes, Bytes, nat, nat) -> Bytes, utf8: string -> Bytes)

  ghost predicate ExactLength(c: Crypto) {
    forall p: Bytes, s: Bytes, n: nat, len: nat :: |c.kdf(p, s, n, len)| == len
  }

  datatype HashError = PasswordTooShort | BadIterations

  function FormatRecord(iterations: nat, salt: Bytes, dk: Bytes): string {
    SCHEME + "$" + (PrintNat(iterations) + "$" + (Encode(salt) + "$" + Encode(dk)))
  }

  /** hash_password with the random salt as input; PBKDF2 refuses an iteration count below 1. */
  function HashPassword(c: Crypto, password: string, iterations: int, salt: Bytes): Result<string, HashError> {
    if |password| < 8 then Err(PasswordTooShort)
    else if iterations < 1 then Err(BadIterations)
    else Ok(FormatRecord(iterations, salt, c.kdf(c.utf8(password), salt, iterations, 32)))
  }

  /** verify_password; every exception in it means False. */
  function VerifyPassword(c: Crypto, password: string, stored: string): bool {
    match SplitRecord(stored)
    case None => false
    case Some(f) =>
      var iterations, salt, expected := ParseNat(f.iterations), Decode(f.salt), Decode(f.dk);
      f.scheme == SCHEME && iterations.Some? && iterations.value >= 1 && salt.Some? && expected.Some? &&
      c.kdf(c.utf8(password), salt.value, iterations.value, |expected.value|) == expected.value
  }

  /** The four fields come back from the printed record unchanged. */
  lemma RecordSplits(iterations: nat, salt: Bytes, dk: Bytes)
    ensures SplitRecord(FormatRecord(iterations, salt, dk))
            == Some(Fields(SCHEME, PrintNat(iterations), Encode(salt), Encode(dk)))
  {
    NatRoundTrip(iterations);
    Base64RoundTrip(salt);
    Base64RoundTrip(dk);
    SchemeClean();
    JoinedSplits(SCHEME, PrintNat(iterations), Encode(salt), Encode(dk));
  }

  lemma SchemeClean()
    ensures Clean(SCHEME)
  {
  }

  lemma JoinedSplits(a: string, b: string, c: string, d: string)
    requires Clean(a) && Clean(b) && Clean(c)
    ensures SplitRecord(a + "$" + (b + "$" + (c + "$" + d))) == Some(Fields(a, b, c, d))
  {
    CutJoined(c, d);
    CutJoined(b, c + "$" + d);
    CutJoined(a, b + "$" + (c + "$" + d));
  }

  /** What hash_password refuses, and the text that it prints otherwise. */
  lemma HashExactly(c: Crypto, password: string, iterations: int, salt: Bytes)
    ensures HashPassword(c, password, iterations, salt) == Err(PasswordTooShort) <==> |password| < 8
    ensures HashPassword(c, password, iterations, salt) == Err(BadIterations) <==> |password| >= 8 && iterations < 1
    ensures |password| >= 8 && iterations >= 1 ==>
              HashPassword(c, password, iterations, salt)
              == Ok("pbkdf2_sha256" + "$" + (PrintNat(iterations) + "$" + (Encode(salt) + "$"
                    + Encode(c.kdf(c.utf8(password), salt, iterations, 32)))))
  {
  }

  lemma {:induction false} CutExact(s: string)
    ensures Cut(s).Some? ==> s == Cut(s).value.0 + "$" + Cut(s).value.1 && '$' !in Cut(s).value.0
    ensures Cut(s).None? ==> '$' !in s
  {
    if s != "" && s[0] != '$' {
      CutExact(s[1..]);
    }
  }

  /** The four parts of a record are cut at its first three separators. */
  lemma SplitExact(stored: string)
    requires SplitRecord(stored).Some?
    ensures var f := SplitRecord(stored).value;
            && stored == f.scheme + "$" + (f.iterations + "$" + (f.salt + "$" + f.dk))
            && '$' !in f.scheme && '$' !in f.iterations && '$' !in f.salt
  {
    CutExact(stored);
    var r1 := Cut(stored).value.1;
    CutExact(r1);
    CutExact(Cut(r1).value.1);
  }

  /** Exactly which stored texts a password verifies against. */
  lemma VerifyExactly(c: Crypto, password: string, stored: string)
    ensures VerifyPassword(c, password, stored) <==>
              && SplitRecord(stored).Some?
              && var f := SplitRecord(stored).value;
                 && f.scheme == "pbkdf2_sha256"
                 && ParseNat(f.iterations).Some? && ParseNat(f.iterations).value >= 1
                 && Decode(f.salt).Some? && Decode(f.dk).Some?
                 && c.kdf(c.utf8(password), Decode(f.salt).value, ParseNat(f.iterations).value, |Decode(f.dk).value|)
                    == Decode(f.dk).value
  {
  }

  /**
   Round trip, both ways: verifying any password against what hash_password printed for
   another succeeds exactly when the two derive the same key; in particular the hashed
   password itself is always accepted.
   */
  lemma VerifyAgainstHash(c: Crypto, password: string, iterations: int, salt: Bytes, attempt: string)
    requires ExactLength(c) && HashPassword(c, password, iterations, salt).Ok?
    ensures var stored := HashPassword(c, password, iterations, salt).value;
            && (VerifyPassword(c, attempt, stored)
                <==> c.kdf(c.utf8(attempt), salt, iterations, 32) == c.kdf(c.utf8(password), salt, iterations, 32))
            && VerifyPassword(c, password, stored)
  {
    var dk := c.kdf(c.utf8(password), salt, iterations, 32);
    RecordSplits(iterations, salt, dk);
    NatRoundTrip(iterations);
    Base64RoundTrip(salt);
    Base64RoundTrip(dk);
  }
}
