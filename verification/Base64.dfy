/**
 * The standard base64 encoding of section 4 of RFC 4648, as Go's decoder reads
 * it, and the shadowsocks-2022 key normaliser built on it (common/helper.go).
 */
module Base64 {
  import opened Wrappers
  import opened Numbers

  type Digit = d: int | 0 <= d < 64

  // ------------------------------------------------------------------ alphabet

  function CharOf(d: Digit): char {
    if d < 26 then 'A' + d as char
    else if d < 52 then 'a' + (d - 26) as char
    else if d < 62 then '0' + (d - 52) as char
    else if d == 62 then '+'
    else '/'
  }

  function DigitOf(c: char): Option<Digit> {
    if 'A' <= c <= 'Z' then Some((c - 'A') as int)
    else if 'a' <= c <= 'z' then Some((c - 'a') as int + 26)
    else if '0' <= c <= '9' then Some((c - '0') as int + 52)
    else if c == '+' then Some(62)
    else if c == '/' then Some(63)
    else None
  }

  const CAPITALS := "ABCDEFGHIJKLMNOPQRSTUVWXYZ"
  const SMALLS := "abcdefghijklmnopqrstuvwxyz"
  const NUMERALS := "0123456789"

  /** The alphabet in the order of the standard. */
  lemma AlphabetIs(d: Digit)
    ensures CharOf(d) == if d < 26 then CAPITALS[d] else if d < 52 then SMALLS[d - 26]
                         else if d < 62 then NUMERALS[d - 52] else "+/"[d - 62]
  {
  }

  lemma DigitOfCharOf(d: Digit)
    ensures DigitOf(CharOf(d)) == Some(d) && CharOf(d) !in {'=', '\r', '\n'}
  {
  }

  /** No other character is a digit. */
  lemma CharOfDigitOf(c: char)
    ensures DigitOf(c).Some? ==> CharOf(DigitOf(c).value) == c
  {
  }

  // ------------------------------------------------------------------ encoding

  /** Three bytes make four digits; one or two left over are padded. */
  function Encode(bytes: seq<Byte>): string {
    if bytes == [] then ""
    else if |bytes| == 1 then
      [CharOf(bytes[0] / 4), CharOf(bytes[0] % 4 * 16), '=', '=']
    else if |bytes| == 2 then
      [CharOf(bytes[0] / 4), CharOf(bytes[0] % 4 * 16 + bytes[1] / 16), CharOf(bytes[1] % 16 * 4), '=']
    else
      Quad(bytes[0], bytes[1], bytes[2]) + Encode(bytes[3..])
  }

  function Quad(a: Byte, b: Byte, c: Byte): string {
    [CharOf(a / 4), CharOf(a % 4 * 16 + b / 16), CharOf(b % 16 * 4 + c / 64), CharOf(c % 64)]
  }

  /** Line breaks are ignored wherever they are. */
  function WithoutBreaks(s: string): string {
    if s == "" then ""
    else if s[0] == '\r' || s[0] == '\n' then WithoutBreaks(s[1..])
    else [s[0]] + WithoutBreaks(s[1..])
  }

  function Decode(s: string): Option<seq<Byte>> {
    DecodeQuads(WithoutBreaks(s))
  }

  /** Padding ends the text, and the bits it leaves unused are not looked at. */
  function DecodeQuads(s: string): Option<seq<Byte>> {
    if s == "" then Some([])
    else if |s| < 4 then None
    else
      match (DigitOf(s[0]), DigitOf(s[1]))
      case (Some(p), Some(q)) =>
        if s[2] == '=' then
          if s[3] == '=' && |s| == 4 then Some([First(p, q)]) else None
        else (
          match (DigitOf(s[2]), DigitOf(s[3]))
          case (Some(r), Some(t)) =>
            (match DecodeQuads(s[4..])
             case Some(rest) => Some([First(p, q), Second(q, r), Third(r, t)] + rest)
             case None => None)
          case (Some(r), None) =>
            if s[3] == '=' && |s| == 4 then Some([First(p, q), Second(q, r)]) else None
          case _ => None)
      case _ => None
  }

  function First(p: Digit, q: Digit): Byte {
    p * 4 + q / 16
  }

  function Second(q: Digit, r: Digit): Byte {
    q % 16 * 16 + r / 4
  }

  function Third(r: Digit, t: Digit): Byte {
    r % 4 * 64 + t
  }

  lemma QuadRoundTrip(a: Byte, b: Byte, c: Byte)
    ensures var p, q, r, t := a / 4, a % 4 * 16 + b / 16, b % 16 * 4 + c / 64, c % 64;
            First(p, q) == a && Second(q, r) == b && Third(r, t) == c
  {
  }

  lemma {:induction false} EncodeHasNoBreaks(bytes: seq<Byte>)
    ensures forall i :: 0 <= i < |Encode(bytes)| ==> Encode(bytes)[i] != '\r' && Encode(bytes)[i] != '\n'
  {
    if |bytes| > 2 {
      EncodeHasNoBreaks(bytes[3..]);
    }
  }

  lemma {:induction false} NoBreaksUnchanged(s: string)
    requires forall i :: 0 <= i < |s| ==> s[i] != '\r' && s[i] != '\n'
    ensures WithoutBreaks(s) == s
  {
    if s != "" {
      NoBreaksUnchanged(s[1..]);
    }
  }

  lemma DecodeOne(p: Digit, q: Digit)
    ensures DecodeQuads([CharOf(p), CharOf(q), '=', '=']) == Some([First(p, q)])
  {
    DigitOfCharOf(p);
    DigitOfCharOf(q);
    hide CharOf, DigitOf, First;
  }

  lemma DecodeTwo(p: Digit, q: Digit, r: Digit)
    ensures DecodeQuads([CharOf(p), CharOf(q), CharOf(r), '=']) == Some([First(p, q), Second(q, r)])
  {
    DigitOfCharOf(p);
    DigitOfCharOf(q);
    DigitOfCharOf(r);
    assert DigitOf('=') == None;
    hide CharOf, DigitOf, First, Second;
  }

  lemma DecodeThree(p: Digit, q: Digit, r: Digit, t: Digit, s: string)
    requires DecodeQuads(s).Some?
    ensures DecodeQuads([CharOf(p), CharOf(q), CharOf(r), CharOf(t)] + s)
         == Some([First(p, q), Second(q, r), Third(r, t)] + DecodeQuads(s).value)
  {
    DigitOfCharOf(p);
    DigitOfCharOf(q);
    DigitOfCharOf(r);
    DigitOfCharOf(t);
    hide CharOf, DigitOf, First, Second, Third;
    assert ([CharOf(p), CharOf(q), CharOf(r), CharOf(t)] + s)[4..] == s;
  }

  lemma OneByteRoundTrip(a: Byte)
    ensures DecodeQuads(Encode([a])) == Some([a])
  {
    DecodeOne(a / 4, a % 4 * 16);
    hide CharOf, DigitOf, DecodeQuads;
  }

  lemma TwoBytesRoundTrip(a: Byte, b: Byte)
    ensures DecodeQuads(Encode([a, b])) == Some([a, b])
  {
    var p, q, r := a / 4, a % 4 * 16 + b / 16, b % 16 * 4;
    assert First(p, q) == a && Second(q, r) == b;
    DecodeTwo(p, q, r);
    hide CharOf, DigitOf, DecodeQuads, First, Second;
  }

  lemma {:induction false} QuadsRoundTrip(bytes: seq<Byte>)
    ensures DecodeQuads(Encode(bytes)) == Some(bytes)
  {
    hide CharOf, DigitOf, DecodeQuads, First, Second, Third;
    if |bytes| == 0 {
      NothingRoundTrip();
    } else if |bytes| == 1 {
      assert bytes == [bytes[0]];
      OneByteRoundTrip(bytes[0]);
    } else if |bytes| == 2 {
      assert bytes == [bytes[0], bytes[1]];
      TwoBytesRoundTrip(bytes[0], bytes[1]);
    } else {
      var a, b, c, rest := bytes[0], bytes[1], bytes[2], bytes[3..];
      QuadsRoundTrip(rest);
      QuadRoundTrip(a, b, c);
      DecodeThree(a / 4, a % 4 * 16 + b / 16, b % 16 * 4 + c / 64, c % 64, Encode(rest));
      assert bytes == [a, b, c] + rest;
    }
  }

  lemma NothingRoundTrip()
    ensures DecodeQuads(Encode([])) == Some([])
  {
  }

  lemma RoundTrip(bytes: seq<Byte>)
    ensures Decode(Encode(bytes)) == Some(bytes)
  {
    EncodeHasNoBreaks(bytes);
    NoBreaksUnchanged(Encode(bytes));
    QuadsRoundTrip(bytes);
  }

  /** Whole groups of digits, with one or two marks of padding at the very end, and what they hold. */
  ghost predicate WellFormed(s: string, length: int) {
    var n := |s|;
    && n % 4 == 0
    && (forall i :: 0 <= i < n - 2 ==> DigitOf(s[i]).Some?)
    && if n == 0 then length == 0
       else if s[n - 2] == '=' then s[n - 1] == '=' && length == n / 4 * 3 - 2
       else DigitOf(s[n - 2]).Some?
            && if s[n - 1] == '=' then length == n / 4 * 3 - 1 else DigitOf(s[n - 1]).Some? && length == n / 4 * 3
  }

  lemma {:induction false} QuadsDecodeWhen(s: string, length: int)
    ensures DecodeQuads(s).Some? && |DecodeQuads(s).value| == length <==> WellFormed(s, length)
  {
    if |s| > 4 {
      hide WellFormed;
      QuadsDecodeWhen(s[4..], length - 3);
      QuadInFront(s, length);
      DecodeRest(s, length);
      hide DecodeQuads;
    } else {
      LastQuad(s, length);
    }
  }

  lemma LastQuad(s: string, length: int)
    requires |s| <= 4
    ensures DecodeQuads(s).Some? && |DecodeQuads(s).value| == length <==> WellFormed(s, length)
  {
    assert DigitOf('=').None?;
    hide DigitOf, First, Second, Third;
    if |s| == 4 {
      assert s[4..] == "";
    }
  }

  lemma DecodeRest(s: string, length: int)
    requires |s| > 4
    ensures DecodeQuads(s).Some? && |DecodeQuads(s).value| == length
       <==> && (forall i :: 0 <= i < 4 ==> DigitOf(s[i]).Some?)
            && DecodeQuads(s[4..]).Some? && |DecodeQuads(s[4..]).value| == length - 3
  {
    hide DecodeQuads, DigitOf;
    if DigitOf(s[0]).Some? && DigitOf(s[1]).Some? && DigitOf(s[2]).Some? && DigitOf(s[3]).Some? {
      DecodeFull(s, DecodeQuads(s[4..]));
    } else {
      DecodeBroken(s);
    }
  }

  lemma DecodeFull(s: string, rest: Option<seq<Byte>>)
    requires |s| > 4 && rest == DecodeQuads(s[4..])
    requires DigitOf(s[0]).Some? && DigitOf(s[1]).Some? && DigitOf(s[2]).Some? && DigitOf(s[3]).Some?
    ensures DecodeQuads(s).Some? <==> rest.Some?
    ensures rest.Some? ==> |DecodeQuads(s).value| == 3 + |rest.value|
  {
    assert DigitOf('=').None?;
    hide DigitOf, First, Second, Third;
  }

  lemma DecodeBroken(s: string)
    requires |s| > 4 && !(DigitOf(s[0]).Some? && DigitOf(s[1]).Some? && DigitOf(s[2]).Some? && DigitOf(s[3]).Some?)
    ensures DecodeQuads(s).None?
  {
    hide DigitOf, First, Second, Third;
  }

  lemma QuadInFront(s: string, length: int)
    requires |s| > 4
    ensures WellFormed(s, length)
       <==> (forall i :: 0 <= i < 4 ==> DigitOf(s[i]).Some?) && WellFormed(s[4..], length - 3)
  {
    hide DigitOf;
    assert forall i :: 0 <= i < |s| - 4 ==> s[4..][i] == s[i + 4];
    if WellFormed(s[4..], length - 3) && forall i :: 0 <= i < 4 ==> DigitOf(s[i]).Some? {
      forall i | 0 <= i < |s| - 2 ensures DigitOf(s[i]).Some? {
        assert i >= 4 ==> s[i] == s[4..][i - 4];
      }
    }
  }

  lemma {:induction false} WithoutBreaksConcat(a: string, b: string)
    ensures WithoutBreaks(a + b) == WithoutBreaks(a) + WithoutBreaks(b)
  {
    if a == "" {
      assert a + b == b;
    } else {
      WithoutBreaksConcat(a[1..], b);
      assert (a + b)[1..] == a[1..] + b;
    }
  }

  lemma LoneBreak(c: char)
    requires c == '\r' || c == '\n'
    ensures WithoutBreaks([c]) == ""
  {
    assert [c][1..] == "";
  }

  /** A line break of either kind makes no difference, wherever it is. */
  lemma BreaksIgnored(a: string, c: char, b: string)
    requires c == '\r' || c == '\n'
    ensures Decode(a + [c] + b) == Decode(a + b)
  {
    hide WithoutBreaks, DecodeQuads;
    WithoutBreaksConcat(a, [c]);
    WithoutBreaksConcat(a + [c], b);
    WithoutBreaksConcat(a, b);
    LoneBreak(c);
    assert WithoutBreaks(a) + "" == WithoutBreaks(a);
  }

  /** What decodes, and to how many bytes. */
  lemma DecodesWhen(s: string, length: int)
    ensures Decode(s).Some? && |Decode(s).value| == length <==> WellFormed(WithoutBreaks(s), length)
  {
    QuadsDecodeWhen(WithoutBreaks(s), length);
  }

  /** The number that four digits write, and the one that three bytes do. */
  function DigitsValue(s: string): int
    requires |s| == 4
  {
    match (DigitOf(s[0]), DigitOf(s[1]), DigitOf(s[2]), DigitOf(s[3]))
    case (Some(p), Some(q), Some(r), Some(t)) => 262144 * p as int + 4096 * q as int + 64 * r as int + t as int
    case _ => -1
  }

  function BytesValue(a: int, b: int, c: int): int {
    65536 * a + 256 * b + c
  }

  lemma QuadValue(a: Byte, b: Byte, c: Byte)
    ensures DigitsValue(Quad(a, b, c)) == BytesValue(a, b, c)
  {
    DigitOfCharOf(a / 4);
    DigitOfCharOf(a % 4 * 16 + b / 16);
    DigitOfCharOf(b % 16 * 4 + c / 64);
    DigitOfCharOf(c % 64);
    hide CharOf, DigitOf;
  }

  /** One or two bytes left over are followed by zero bits, and by padding. */
  lemma EncodedTail(a: Byte, b: Byte)
    ensures var s := Encode([a]);
            |s| == 4 && s[2..] == "==" && DigitsValue(s[..2] + "AA") == BytesValue(a, 0, 0)
    ensures var s := Encode([a, b]);
            |s| == 4 && s[3] == '=' && DigitsValue(s[..3] + "A") == BytesValue(a, b, 0)
  {
    QuadValue(a, 0, 0);
    QuadValue(a, b, 0);
    assert CharOf(0) == 'A';
    hide CharOf, DigitsValue, BytesValue;
    assert Encode([a])[..2] + "AA" == Quad(a, 0, 0);
    assert Encode([a, b])[..3] + "A" == Quad(a, b, 0);
  }

  /** Every three bytes and their four digits are the same 24 bits. */
  lemma {:induction false} EncodedGroup(bytes: seq<Byte>, g: nat)
    requires 3 * g + 3 <= |bytes|
    ensures |Encode(bytes)| >= 4 * g + 4
    ensures DigitsValue(Encode(bytes)[4 * g..4 * g + 4]) == BytesValue(bytes[3 * g], bytes[3 * g + 1], bytes[3 * g + 2])
  {
    var head, rest := Quad(bytes[0], bytes[1], bytes[2]), Encode(bytes[3..]);
    assert Encode(bytes) == head + rest && |head| == 4;
    QuadValue(bytes[0], bytes[1], bytes[2]);
    hide Encode, Quad, DigitsValue, BytesValue;
    if g == 0 {
      assert (head + rest)[0..4] == head;
    } else {
      EncodedGroup(bytes[3..], g - 1);
      assert (head + rest)[4 * g..4 * g + 4] == rest[4 * g - 4..4 * g];
    }
  }

  // ------------------------------------------------------- key normalisation

  type Digest = s: seq<Byte> | |s| == 32 witness seq(32, _ => 0)

  predicate Contains(s: string, sub: string) {
    sub <= s || (s != "" && Contains(s[1..], sub))
  }

  /** Whether the cipher name says that a decoded key has the right length; the name may be of no cipher known here. */
  predicate FitsMethod(cipher: string, key: seq<Byte>) {
    || (Contains(cipher, "aes-128-gcm") && |key| == 16)
    || ((Contains(cipher, "aes-256-gcm") || Contains(cipher, "chacha20-poly1305")) && |key| == 32)
  }

  predicate Usable(password: string, cipher: string) {
    Decode(password).Some? && FitsMethod(cipher, Decode(password).value)
  }

  function DerivedKey(sha256: string -> Digest, password: string, cipher: string): seq<Byte> {
    if Contains(cipher, "aes-128-gcm") then sha256(password)[..16] else sha256(password)
  }

  function EnsureBase64Password(sha256: string -> Digest, password: string, cipher: string): string {
    if Usable(password, cipher) then password else Encode(DerivedKey(sha256, password, cipher))
  }

  predicate KnownMethod(cipher: string) {
    Contains(cipher, "aes-128-gcm") || Contains(cipher, "aes-256-gcm") || Contains(cipher, "chacha20-poly1305")
  }

  ghost predicate Occurs(sub: string, s: string) {
    exists a: string, b: string :: a + sub + b == s
  }

  lemma {:induction false} ContainsWhen(s: string, sub: string)
    ensures Contains(s, sub) <==> Occurs(sub, s)
  {
    if sub <= s {
      assert [] + sub + s[|sub|..] == s;
    } else if s != "" {
      ContainsWhen(s[1..], sub);
      OccursBehind(s, sub);
    }
  }

  lemma OccursBehind(s: string, sub: string)
    requires s != "" && !(sub <= s)
    ensures Occurs(sub, s) <==> Occurs(sub, s[1..])
  {
    if a: string, b: string :| a + sub + b == s {
      assert a == [] ==> a + sub + b == sub + b;
      if a != [] {
        assert s[1..] == a[1..] + sub + b;
      }
    }
    if a: string, b: string :| a + sub + b == s[1..] {
      assert [s[0]] + a + sub + b == s;
    }
  }

  /** A password that decodes to a key of the length the method asks for. */
  ghost predicate IsKeyFor(password: string, cipher: string) {
    match Decode(password)
    case None => false
    case Some(key) =>
      || (Occurs("aes-128-gcm", cipher) && |key| == 16)
      || (Occurs("aes-256-gcm", cipher) && |key| == 32)
      || (Occurs("chacha20-poly1305", cipher) && |key| == 32)
  }

  /**
   * What comes out, for every password and method: the password if it is a key of
   * the right length, and otherwise the encoding of its hash, cut to the first 16
   * bytes where the method is an aes-128-gcm one.
   */
  lemma EnsuredKeyIs(sha256: string -> Digest, password: string, cipher: string)
    ensures var out := EnsureBase64Password(sha256, password, cipher);
            var key := if Occurs("aes-128-gcm", cipher) then sha256(password)[..16] else sha256(password);
            if IsKeyFor(password, cipher) then out == password else out == Encode(key) && Decode(out) == Some(key)
  {
    ContainsWhen(cipher, "aes-128-gcm");
    ContainsWhen(cipher, "aes-256-gcm");
    ContainsWhen(cipher, "chacha20-poly1305");
    hide Contains, Occurs, Decode, Encode;
    RoundTrip(sha256(password)[..16]);
    RoundTrip(sha256(password));
  }

  /** For a cipher it knows the result is always a usable key, whatever the password. */
  lemma EnsuredIsUsable(sha256: string -> Digest, password: string, cipher: string)
    requires KnownMethod(cipher)
    ensures Usable(EnsureBase64Password(sha256, password, cipher), cipher)
  {
    RoundTrip(DerivedKey(sha256, password, cipher));
    hide Decode, Encode;
  }

  /**
   * Normalising a key twice is normalising it once for the ciphers it knows, and
   * for any other exactly when the hash happens to fix the derived key.
   */
  lemma EnsureIdempotent(sha256: string -> Digest, password: string, cipher: string)
    ensures var once := EnsureBase64Password(sha256, password, cipher);
            EnsureBase64Password(sha256, once, cipher) == once
            <==> KnownMethod(cipher) || sha256(Encode(sha256(password))) == sha256(password)
  {
    var once := EnsureBase64Password(sha256, password, cipher);
    if KnownMethod(cipher) {
      EnsuredIsUsable(sha256, password, cipher);
    } else {
      RoundTrip(sha256(password));
      RoundTrip(sha256(Encode(sha256(password))));
    }
    hide Decode, Encode, Contains;
  }

  /** Such a cipher, with a hash that tells an empty password from a derived key. */
  lemma UnknownCipherNotIdempotent()
    ensures var sha256: string -> Digest := (s: string) => seq(32, _ => if s == "" then 0 else 1);
            var once := EnsureBase64Password(sha256, "", "2022-blake3");
            EnsureBase64Password(sha256, once, "2022-blake3") != once
  {
    var sha256: string -> Digest := (s: string) => seq(32, _ => if s == "" then 0 else 1);
    assert "2022-blake3"[0] != "aes-128-gcm"[0] && "2022-blake3"[0] != "aes-256-gcm"[0];
    NotContained("2022-blake3", "aes-128-gcm");
    NotContained("2022-blake3", "aes-256-gcm");
    NotContained("2022-blake3", "chacha20-poly1305");
    EncodeNonEmpty(sha256(""));
    assert sha256(Encode(sha256("")))[0] == 1 && sha256("")[0] == 0;
    EnsureIdempotent(sha256, "", "2022-blake3");
  }

  lemma {:induction false} NotContained(s: string, sub: string)
    requires |s| <= |sub| && s != sub
    ensures !Contains(s, sub)
  {
    if s != "" {
      NotContained(s[1..], sub);
    }
  }

  lemma EncodeNonEmpty(bytes: seq<Byte>)
    requires bytes != []
    ensures Encode(bytes) != ""
  {
  }
}
