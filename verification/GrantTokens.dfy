/** app/execution_grants.py: unpadded base64url (section 5 of RFC 4648) and the signed grant
    token. JSON and HMAC are parameters; what is proved holds for every choice of them that
    satisfies Lawful. */
module GrantTokens {
  import opened Ordering
  import opened Integrity
  import opened Store

  type Byte = b: int | 0 <= b < 256

  // ---------------------------------------------------------------- base64url

  type Sextet = s: int | 0 <= s < 64

  function CharOf(s: Sextet): char {
    if s < 26 then (s + 'A' as int) as char
    else if s < 52 then (s - 26 + 'a' as int) as char
    else if s < 62 then (s - 52 + '0' as int) as char
    else if s == 62 then '-' else '_'
  }

  /** With altchars, b64decode still takes '+' and '/' as well. */
  function SextetOf(c: char): Option<Sextet> {
    if 'A' <= c <= 'Z' then Some(c as int - 'A' as int)
    else if 'a' <= c <= 'z' then Some(c as int - 'a' as int + 26)
    else if '0' <= c <= '9' then Some(c as int - '0' as int + 52)
    else if c == '-' || c == '+' then Some(62)
    else if c == '_' || c == '/' then Some(63)
    else None
  }

  function FirstSextet(a: Byte): Sextet {
    a / 4
  }

  function SecondSextet(a: Byte, b: Byte): Sextet {
    a % 4 * 16 + b / 16
  }

  function ThirdSextet(b: Byte, c: Byte): Sextet {
    b % 16 * 4 + c / 64
  }

  function LastSextet(c: Byte): Sextet {
    c % 64
  }

  /** Groups of three bytes as four characters; a last group of one or two bytes as two or
      three, with zero bits where bytes are missing and no padding. */
  function Encode(bytes: seq<Byte>): string {
    if |bytes| == 0 then ""
    else if |bytes| == 1 then [CharOf(FirstSextet(bytes[0])), CharOf(SecondSextet(bytes[0], 0))]
    else if |bytes| == 2 then
      [CharOf(FirstSextet(bytes[0])), CharOf(SecondSextet(bytes[0], bytes[1])), CharOf(ThirdSextet(bytes[1], 0))]
    else
      [CharOf(FirstSextet(bytes[0])), CharOf(SecondSextet(bytes[0], bytes[1])),
       CharOf(ThirdSextet(bytes[1], bytes[2])), CharOf(LastSextet(bytes[2]))] + Encode(bytes[3..])
  }

  function Sextets(text: string): Option<seq<Sextet>> {
    if text == "" then Some([])
    else if SextetOf(text[0]).None? || Sextets(text[1..]).None? then None
    else Some([SextetOf(text[0]).value] + Sextets(text[1..]).value)
  }

  function FirstByte(a: Sextet, b: Sextet): Byte {
    a as int * 4 + b as int / 16
  }

  function SecondByte(b: Sextet, c: Sextet): Byte {
    b as int % 16 * 16 + c as int / 4
  }

  function ThirdByte(c: Sextet, d: Sextet): Byte {
    c as int % 4 * 64 + d as int
  }

  /** The decoder under padding: spare low bits are dropped, a lone last character is an error. */
  function Bytes(s: seq<Sextet>): Option<seq<Byte>> {
    if |s| == 0 then Some([])
    else if |s| == 1 then None
    else if |s| == 2 then Some([FirstByte(s[0], s[1])])
    else if |s| == 3 then Some([FirstByte(s[0], s[1]), SecondByte(s[1], s[2])])
    else
      match Bytes(s[4..])
      case None => None
      case Some(rest) => Some([FirstByte(s[0], s[1]), SecondByte(s[1], s[2]), ThirdByte(s[2], s[3])] + rest)
  }

  function LaxDecode(text: string): Option<seq<Byte>> {
    match Sextets(text)
    case None => None
    case Some(sextets) => Bytes(sextets)
  }

  /** _base64url_decode: strict input, then compared with its own encoding. */
  function Decode(text: string): Option<seq<Byte>> {
    if text == "" || '=' in text then None
    else
      match LaxDecode(text)
      case None => None
      case Some(bytes) => if Encode(bytes) == text then Some(bytes) else None
  }

  lemma AlphabetRoundTrip(s: Sextet)
    ensures SextetOf(CharOf(s)) == Some(s)
    ensures CharOf(s) != '.' && CharOf(s) != '=' && CharOf(s) < 128 as char
  {
  }

  /** The sextets of an encoding. */
  function SextetsOf(bytes: seq<Byte>): seq<Sextet> {
    if |bytes| == 0 then []
    else if |bytes| == 1 then [FirstSextet(bytes[0]), SecondSextet(bytes[0], 0)]
    else if |bytes| == 2 then [FirstSextet(bytes[0]), SecondSextet(bytes[0], bytes[1]), ThirdSextet(bytes[1], 0)]
    else
      [FirstSextet(bytes[0]), SecondSextet(bytes[0], bytes[1]), ThirdSextet(bytes[1], bytes[2]), LastSextet(bytes[2])]
      + SextetsOf(bytes[3..])
  }

  function Spelled(sextets: seq<Sextet>): string {
    seq(|sextets|, i requires 0 <= i < |sextets| => CharOf(sextets[i]))
  }

  lemma {:induction false} EncodeSpells(bytes: seq<Byte>)
    ensures Encode(bytes) == Spelled(SextetsOf(bytes))
  {
    hide CharOf, FirstSextet, SecondSextet, ThirdSextet, LastSextet;
    if |bytes| >= 3 {
      EncodeSpells(bytes[3..]);
    }
  }

  const UPPER := "ABCDEFGHIJKLMNOPQRSTUVWXYZ"
  const LOWER := "abcdefghijklmnopqrstuvwxyz"
  const DECIMAL := "0123456789"

  /** Character k of the alphabet in Table 2 of RFC 4648. */
  function Letter(k: Sextet): char {
    (UPPER + LOWER + DECIMAL + "-_")[k]
  }

  lemma AlphabetIs(s: Sextet)
    ensures CharOf(s) == Letter(s)
  {
    if s < 26 {
      assert CharOf(s) == UPPER[s];
    } else if s < 52 {
      assert CharOf(s) == LOWER[s - 26];
    } else if s < 62 {
      assert CharOf(s) == DECIMAL[s - 52];
    }
  }

  /** The 24-bit number that three bytes spell; a missing byte is zero. */
  function GroupOf(bytes: seq<Byte>, g: nat): nat {
    (if 3 * g < |bytes| then bytes[3 * g] as nat * 65536 else 0) + (if 3 * g + 1 < |bytes| then bytes[3 * g + 1] as nat * 256 else 0)
    + (if 3 * g + 2 < |bytes| then bytes[3 * g + 2] as nat else 0)
  }

  /** One group in the digits of base 64. */
  lemma GroupDigits(a: Byte, b: Byte, c: Byte)
    ensures var n := a * 65536 + b * 256 + c;
            && FirstSextet(a) == n / 262144 && SecondSextet(a, b) == n / 4096 % 64
            && ThirdSextet(b, c) == n / 64 % 64 && LastSextet(c) == n % 64
  {
    FourDigits(a / 4, a % 4 * 16 + b / 16, b % 16 * 4 + c / 64, c % 64);
    assert a == a / 4 * 4 + a % 4 && b == b / 16 * 16 + b % 16 && c == c / 64 * 64 + c % 64;
  }

  lemma FourDigits(w: Sextet, x: Sextet, y: Sextet, z: Sextet)
    ensures var n := w * 262144 + x * 4096 + y * 64 + z;
            n / 262144 == w && n / 4096 % 64 == x && n / 64 % 64 == y && n % 64 == z
  {
    var n := w * 262144 + x * 4096 + y * 64 + z;
    assert n / 64 == w * 4096 + x * 64 + y;
    assert n / 4096 == w * 64 + x;
  }

  /** Each group is written in the digits of base 64, the highest first, and the text stops
      after the last character that holds a bit of some byte. */
  lemma {:induction false} EncodingIs(bytes: seq<Byte>, g: nat)
    requires 3 * g < |bytes|
    ensures |Encode(bytes)| == (|bytes| * 8 + 5) / 6
    ensures var (text, n) := (Encode(bytes), GroupOf(bytes, g));
            && 4 * g + 1 < |text| && n < 16777216
            && text[4 * g] == Letter(n / 262144) && text[4 * g + 1] == Letter(n / 4096 % 64)
            && (3 * g + 1 < |bytes| ==> 4 * g + 2 < |text| && text[4 * g + 2] == Letter(n / 64 % 64))
            && (3 * g + 2 < |bytes| ==> 4 * g + 3 < |text| && text[4 * g + 3] == Letter(n % 64))
  {
    hide CharOf, Letter, FirstSextet, SecondSextet, ThirdSextet, LastSextet;
    EncodingLength(bytes);
    if g > 0 {
      EncodingIs(bytes[3..], g - 1);
      assert GroupOf(bytes[3..], g - 1) == GroupOf(bytes, g);
    } else {
      var (a, b, c) := (bytes[0], if |bytes| > 1 then bytes[1] else 0, if |bytes| > 2 then bytes[2] else 0);
      GroupDigits(a, b, c);
      AlphabetIs(FirstSextet(a));
      AlphabetIs(SecondSextet(a, b));
      AlphabetIs(ThirdSextet(b, c));
      AlphabetIs(LastSextet(c));
    }
  }

  lemma {:induction false} EncodingLength(bytes: seq<Byte>)
    ensures |Encode(bytes)| == (|bytes| * 8 + 5) / 6
  {
    hide CharOf, FirstSextet, SecondSextet, ThirdSextet, LastSextet;
    if |bytes| >= 3 {
      EncodingLength(bytes[3..]);
    }
  }

  lemma {:induction false} SpelledSextets(sextets: seq<Sextet>)
    ensures Sextets(Spelled(sextets)) == Some(sextets)
  {
    hide CharOf, SextetOf;
    if sextets == [] {
      assert Spelled(sextets) == "";
    } else {
      AlphabetRoundTrip(sextets[0]);
      SpelledSextets(sextets[1..]);
      assert Spelled(sextets)[1..] == Spelled(sextets[1..]);
      assert sextets == [sextets[0]] + sextets[1..];
    }
  }

  lemma {:induction false} BytesOfSextets(bytes: seq<Byte>)
    ensures Bytes(SextetsOf(bytes)) == Some(bytes)
  {
    hide FirstSextet, SecondSextet, ThirdSextet, LastSextet, FirstByte, SecondByte, ThirdByte;
    if |bytes| >= 3 {
      BytesOfSextets(bytes[3..]);
      assert SextetsOf(bytes)[4..] == SextetsOf(bytes[3..]);
      GroupRoundTrip(bytes[0], bytes[1], bytes[2]);
      assert bytes == [bytes[0], bytes[1], bytes[2]] + bytes[3..];
    } else if |bytes| == 2 {
      GroupRoundTrip(bytes[0], bytes[1], 0);
      assert bytes == [bytes[0], bytes[1]];
    } else if |bytes| == 1 {
      GroupRoundTrip(bytes[0], 0, 0);
      assert bytes == [bytes[0]];
    }
  }

  lemma GroupRoundTrip(a: Byte, b: Byte, c: Byte)
    ensures FirstByte(FirstSextet(a), SecondSextet(a, b)) == a
    ensures SecondByte(SecondSextet(a, b), ThirdSextet(b, c)) == b
    ensures ThirdByte(ThirdSextet(b, c), LastSextet(c)) == c
  {
  }

  lemma {:induction false} EncodeIsPlain(bytes: seq<Byte>)
    ensures '.' !in Encode(bytes) && '=' !in Encode(bytes)
    ensures forall i :: 0 <= i < |Encode(bytes)| ==> Encode(bytes)[i] < 128 as char
    ensures Encode(bytes) == "" <==> bytes == []
  {
    hide CharOf, Encode;
    EncodeSpells(bytes);
    forall i | 0 <= i < |Encode(bytes)|
      ensures Encode(bytes)[i] != '.' && Encode(bytes)[i] != '=' && Encode(bytes)[i] < 128 as char
    {
      AlphabetRoundTrip(SextetsOf(bytes)[i]);
    }
  }

  lemma EncodeDecodes(bytes: seq<Byte>)
    ensures LaxDecode(Encode(bytes)) == Some(bytes)
  {
    EncodeSpells(bytes);
    SpelledSextets(SextetsOf(bytes));
    BytesOfSextets(bytes);
  }

  /** Decoding accepts exactly the encodings of non-empty byte strings, and inverts them. */
  lemma DecodeIsInverse(text: string, bytes: seq<Byte>)
    ensures Decode(text) == Some(bytes) <==> bytes != [] && text == Encode(bytes)
  {
    hide Encode, LaxDecode;
    EncodeDecodes(bytes);
    EncodeIsPlain(bytes);
  }

  /** Without the comparison one byte string would have sixteen spellings: the spare low bits
      of the last character do not count, and only zero bits are accepted. */
  lemma SpareBitsRefused(a: Sextet, low: Sextet)
    requires 0 < low < 16
    ensures LaxDecode([CharOf(a), CharOf(low)]) == LaxDecode([CharOf(a), CharOf(0)])
    ensures Decode([CharOf(a), CharOf(0)]).Some? && Decode([CharOf(a), CharOf(low)]).None?
  {
    hide LaxDecode, Decode, CharOf, SextetOf, FirstByte, FirstSextet, SecondSextet;
    AlphabetRoundTrip(a);
    AlphabetRoundTrip(0);
    AlphabetRoundTrip(low);
    SpareBits(a, 0);
    SpareBits(a, low);
    TwoCharacters(CharOf(a), CharOf(0), FirstByte(a, 0));
    TwoCharacters(CharOf(a), CharOf(low), FirstByte(a, low));
  }

  lemma SpareBits(a: Sextet, low: Sextet)
    requires low < 16
    ensures FirstByte(a, low) == 4 * a
    ensures FirstSextet(FirstByte(a, low)) == a && SecondSextet(FirstByte(a, low), 0) == 0
  {
  }

  /** The standard alphabet's '+' would be read as '-', and is refused. */
  lemma PlusRefused(b: char)
    requires SextetOf(b).Some?
    ensures LaxDecode(['+', b]) == LaxDecode(['-', b]) && LaxDecode(['-', b]).Some?
    ensures Decode(['+', b]).None?
  {
    hide LaxDecode, Decode, FirstByte, FirstSextet, SecondSextet, Sextets, Encode, Bytes;
    var byte := FirstByte(62, SextetOf(b).value);
    TwoCharacters('+', b, byte);
    TwoCharacters('-', b, byte);
    NoPlus(FirstSextet(byte));
  }

  lemma NoPlus(s: Sextet)
    ensures CharOf(s) != '+'
  {
  }

  lemma TwoCharacters(a: char, b: char, byte: Byte)
    requires SextetOf(a).Some? && SextetOf(b).Some? && byte == FirstByte(SextetOf(a).value, SextetOf(b).value)
    ensures LaxDecode([a, b]) == Some([byte])
    ensures a != '=' && b != '='
    ensures Decode([a, b]) == if CharOf(FirstSextet(byte)) == a && CharOf(SecondSextet(byte, 0)) == b
                              then Some([byte]) else None
  {
    hide FirstByte, CharOf, FirstSextet, SecondSextet;
    var x, y := SextetOf(a).value, SextetOf(b).value;
    assert [a, b][1..] == [b] && [b][1..] == "";
    assert Sextets("") == Some([]);
    assert [y] + [] == [y] && [x] + [y] == [x, y];
    assert Sextets([b]) == Some([y]);
    assert Sextets([a, b]) == Some([x, y]);
    var encoded := Encode([byte]);
    assert encoded[0] == CharOf(FirstSextet(byte)) && encoded[1] == CharOf(SecondSextet(byte, 0));
  }

  // ---------------------------------------------------------------- split and join

  function Split(text: string): (parts: seq<string>)
    ensures |parts| >= 1
  {
    if text == "" then [""]
    else if text[0] == '.' then [""] + Split(text[1..])
    else
      var rest := Split(text[1..]);
      [[text[0]] + rest[0]] + rest[1..]
  }

  function Join(parts: seq<string>): string
    requires |parts| >= 1
  {
    if |parts| == 1 then parts[0] else parts[0] + "." + Join(parts[1..])
  }

  lemma {:induction false} JoinSplit(text: string)
    ensures Join(Split(text)) == text
  {
    if text != "" {
      JoinSplit(text[1..]);
      assert text == [text[0]] + text[1..];
      var rest := Split(text[1..]);
      if text[0] == '.' {
        assert Split(text)[1..] == rest;
      } else {
        assert Split(text)[1..] == rest[1..];
        assert |rest| > 1 ==> Join(rest) == rest[0] + "." + Join(rest[1..]);
      }
    }
  }

  lemma {:induction false} SplitPlain(text: string)
    requires '.' !in text
    ensures Split(text) == [text]
  {
    if text != "" {
      SplitPlain(text[1..]);
      assert text == [text[0]] + text[1..];
    }
  }

  lemma {:induction false} SplitFirst(part: string, rest: string)
    requires '.' !in part
    ensures Split(part + "." + rest) == [part] + Split(rest)
  {
    var text := part + "." + rest;
    if part == "" {
      assert text[1..] == rest;
    } else {
      SplitFirst(part[1..], rest);
      assert text[1..] == part[1..] + "." + rest;
      assert part == [part[0]] + part[1..];
    }
  }

  // ---------------------------------------------------------------- tokens

  /** Canonical JSON of a payload, json.loads with validation, and HMAC-SHA-256. */
  datatype Scheme = Scheme(serialize: Payload -> seq<Byte>, deserialize: seq<Byte> -> Option<Payload>,
                           sign: (seq<Byte>, string) -> seq<Byte>)

  /** What the payload validators require. */
  predicate ValidPayload(payload: Payload) {
    payload.issuedAt < payload.expiresAt && payload.fingerprint.FingerprintOf?
  }

  /** The format of the payload at hand is read back, only valid payloads are read, and a
      signature has 32 bytes. */
  ghost predicate Lawful(scheme: Scheme, payload: Payload) {
    && (ValidPayload(payload) ==> scheme.serialize(payload) != []
                                  && scheme.deserialize(scheme.serialize(payload)) == Some(payload))
    && (forall b :: scheme.deserialize(b).Some? ==> ValidPayload(scheme.deserialize(b).value))
    && (forall secret, text :: |scheme.sign(secret, text)| == 32)
  }

  /** Any two payloads have a scheme that is lawful for both. */
  lemma LawfulSchemeExists(a: Payload, b: Payload)
    ensures exists scheme :: Lawful(scheme, a) && Lawful(scheme, b)
  {
    var valid := p => if ValidPayload(p) then Some(p) else None;
    var scheme := Scheme(p => if p == a then [1] else [2], bytes => if bytes == [1] then valid(a) else valid(b),
                         (secret, text) => seq(32, _ => 0));
    assert Lawful(scheme, a) && Lawful(scheme, b);
  }

  datatype TokenError = WeakSecret | InvalidPayload | NotAscii | InvalidGrantError

  const PREFIX := "dag_exec_v1"

  function Segment(scheme: Scheme, payload: Payload): string {
    Encode(scheme.serialize(payload))
  }

  function SigningInput(segment: string): string {
    PREFIX + "." + segment
  }

  function Build(scheme: Scheme, payload: Payload, secret: seq<Byte>): Result<string, TokenError> {
    if |secret| < 32 then Err(WeakSecret)
    else if !ValidPayload(payload) then Err(InvalidPayload)
    else
      var input := SigningInput(Segment(scheme, payload));
      Ok(input + "." + Encode(scheme.sign(secret, input)))
  }

  predicate Ascii(text: string) {
    forall i :: 0 <= i < |text| ==> text[i] < 128 as char
  }

  function Parse(scheme: Scheme, token: string, secret: seq<Byte>): Result<Payload, TokenError> {
    if |secret| < 32 then Err(WeakSecret)
    else
      var parts := Split(token);
      if |parts| != 3 || parts[0] != PREFIX then Err(InvalidGrantError)
      else if !Ascii(parts[1]) then Err(NotAscii)
      else
        var signature := Decode(parts[2]);
        if signature.None? || signature.value != scheme.sign(secret, SigningInput(parts[1])) then Err(InvalidGrantError)
        else
          var bytes := Decode(parts[1]);
          if bytes.None? then Err(InvalidGrantError)
          else
            var payload := scheme.deserialize(bytes.value);
            if payload.None? || Segment(scheme, payload.value) != parts[1] then Err(InvalidGrantError)
            else Ok(payload.value)
  }

  lemma SplitThree(segment: string, signature: string)
    requires '.' !in segment && '.' !in signature
    ensures Split(SigningInput(segment) + "." + signature) == [PREFIX, segment, signature]
  {
    hide Split;
    SplitPlain(signature);
    SplitFirst(segment, signature);
    SplitFirst(PREFIX, segment + "." + signature);
    assert SigningInput(segment) + "." + signature == PREFIX + "." + (segment + "." + signature);
  }

  /** Parsing what was built gives the payload back. */
  lemma ParseInvertsBuild(scheme: Scheme, payload: Payload, secret: seq<Byte>)
    requires Lawful(scheme, payload) && |secret| >= 32 && ValidPayload(payload)
    ensures Build(scheme, payload, secret).Ok?
    ensures Parse(scheme, Build(scheme, payload, secret).value, secret) == Ok(payload)
  {
    hide Encode, Split, Decode;
    var bytes := scheme.serialize(payload);
    var signature := scheme.sign(secret, SigningInput(Encode(bytes)));
    EncodeIsPlain(bytes);
    EncodeIsPlain(signature);
    SplitThree(Encode(bytes), Encode(signature));
    DecodeIsInverse(Encode(bytes), bytes);
    DecodeIsInverse(Encode(signature), signature);
  }

  /** Every accepted token is the one that building its payload gives. */
  lemma BuildInvertsParse(scheme: Scheme, token: string, secret: seq<Byte>)
    requires Parse(scheme, token, secret).Ok? && Lawful(scheme, Parse(scheme, token, secret).value)
    ensures Build(scheme, Parse(scheme, token, secret).value, secret) == Ok(token)
  {
    hide Encode, Split, Decode;
    var parts := Split(token);
    JoinSplit(token);
    DecodeIsInverse(parts[1], Decode(parts[1]).value);
    DecodeIsInverse(parts[2], Decode(parts[2]).value);
    JoinThree(parts);
  }

  lemma JoinThree(parts: seq<string>)
    requires |parts| == 3 && parts[0] == PREFIX
    ensures Join(parts) == SigningInput(parts[1]) + "." + parts[2]
  {
    assert parts[1..][1..] == [parts[2]];
    assert Join(parts[1..]) == parts[1] + "." + parts[2];
    assert Join(parts) == PREFIX + "." + (parts[1] + "." + parts[2]);
  }

  /** For one secret, tokens and payloads correspond one to one: a token is accepted exactly
      when it was built, and one payload has exactly one accepted token. */
  lemma TokensAreCanonical(scheme: Scheme, token: string, payload: Payload, secret: seq<Byte>)
    requires Lawful(scheme, payload)
    ensures Parse(scheme, token, secret) == Ok(payload) <==> Build(scheme, payload, secret) == Ok(token)
  {
    hide Parse, Lawful;
    if Parse(scheme, token, secret) == Ok(payload) {
      BuildInvertsParse(scheme, token, secret);
    }
    if Build(scheme, payload, secret) == Ok(token) {
      ParseInvertsBuild(scheme, payload, secret);
    }
  }

  /** One token names one grant: with the same secret no two payloads share a token. */
  lemma TokenNamesPayload(scheme: Scheme, a: Payload, b: Payload, secret: seq<Byte>)
    requires Lawful(scheme, a) && Lawful(scheme, b)
    requires Build(scheme, a, secret).Ok? && Build(scheme, a, secret) == Build(scheme, b, secret)
    ensures a == b
  {
    hide Parse, Build, Lawful;
    TokensAreCanonical(scheme, Build(scheme, a, secret).value, a, secret);
    TokensAreCanonical(scheme, Build(scheme, a, secret).value, b, secret);
  }
}
