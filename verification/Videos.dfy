/** The signed video ids (lazarus/agent/videos.py). */
module Videos {
  // An id is the served name, the job and their signature, joined by slashes, in
  // unpadded url-safe base64 (section 5 of RFC 4648). Text is its bytes in UTF-8;
  // `mac` is the keyed hash in hexadecimal, cut to 32 characters, and `utf8` says
  // which bytes decode as text.

  import opened Prelude

  type byte = x: int | 0 <= x < 256
  type Text = seq<byte>

  /** Raises: comparing digests refuses text that is not ASCII. */
  datatype Result = Job(job: Text) | NotFound | Raises

  const SLASH: byte := 47
  const PAD: byte := 61
  const PREFIX: Text := [118, 105, 100, 101, 111, 95]   // video_

  // ----- base64 -----

  /** The url-safe alphabet: A-Z, a-z, 0-9, - and _. */
  function Digit(v: nat): (c: byte)
    requires v < 64
    ensures c != PAD && InAlphabet(c)
  {
    if v < 26 then 65 + v
    else if v < 52 then 97 + (v - 26)
    else if v < 62 then 48 + (v - 52)
    else if v == 62 then 45 else 95
  }

  predicate InAlphabet(c: byte) {
    65 <= c <= 90 || 97 <= c <= 122 || 48 <= c <= 57 || c == 45 || c == 95
  }

  /** What a character stands for to the decoder, which takes + and / as well. */
  function Value(c: byte): (v: Option<nat>)
    ensures v.Some? ==> v.value < 64
  {
    if 65 <= c <= 90 then Some(c - 65)
    else if 97 <= c <= 122 then Some(c - 97 + 26)
    else if 48 <= c <= 57 then Some(c - 48 + 52)
    else if c == 45 || c == 43 then Some(62)
    else if c == 95 || c == 47 then Some(63)
    else None
  }

  /** The table of RFC 4648 for file names and addresses (its section 5): A to Z, a to z,
      0 to 9, - and _. */
  lemma DigitsAreTheTable(v: nat)
    requires v < 64
    ensures Digit(0) as char == 'A' && Digit(25) as char == 'Z' && Digit(26) as char == 'a' && Digit(51) as char == 'z'
    ensures Digit(52) as char == '0' && Digit(61) as char == '9' && Digit(62) as char == '-' && Digit(63) as char == '_'
    ensures v < 61 && v != 25 && v != 51 ==> Digit(v + 1) == Digit(v) + 1
  {
  }

  lemma DigitHasItsValue(v: nat)
    requires v < 64
    ensures Value(Digit(v)) == Some(v)
  {
  }

  function Quad(a: byte, b: byte, c: byte): Text {
    [Digit(a / 4), Digit(a % 4 * 16 + b / 16), Digit(b % 16 * 4 + c / 64), Digit(c % 64)]
  }

  /** Four digits stand for three bytes: the same 24 bits, read as one number. */
  lemma QuadIsTheNumber(a: byte, b: byte, c: byte)
    ensures var q := Quad(a, b, c);
            && Value(q[0]).Some? && Value(q[1]).Some? && Value(q[2]).Some? && Value(q[3]).Some?
            && ((Value(q[0]).value * 64 + Value(q[1]).value) * 64 + Value(q[2]).value) * 64 + Value(q[3]).value
               == (a * 256 + b) * 256 + c
  {
    DigitHasItsValue(a / 4);
    DigitHasItsValue(a % 4 * 16 + b / 16);
    DigitHasItsValue(b % 16 * 4 + c / 64);
    DigitHasItsValue(c % 64);
  }

  /** Url-safe base64 without its padding. */
  function Encode(raw: Text): Text {
    if |raw| == 0 then []
    else if |raw| == 1 then [Digit(raw[0] / 4), Digit(raw[0] % 4 * 16)]
    else if |raw| == 2 then [Digit(raw[0] / 4), Digit(raw[0] % 4 * 16 + raw[1] / 16), Digit(raw[1] % 16 * 4)]
    else Quad(raw[0], raw[1], raw[2]) + Encode(raw[3..])
  }

  function Then(b: nat, rest: Option<Text>): Option<Text>
    requires b < 256
  {
    if rest.Some? then Some([b] + rest.value) else None
  }

  /** The decoder in its lenient mode: characters outside the alphabet are skipped,
      enough padding ends the text, whatever follows. `at` is the place in the quad,
      `left` the bits of it not yet given out, `pads` the padding just seen. */
  function Decode(s: Text, at: nat, left: nat, pads: nat): Option<Text>
    requires at < 4 && (at == 0 || (at == 1 && left < 64) || (at == 2 && left < 16) || (at == 3 && left < 4))
    decreases |s|
  {
    if s == [] then if at == 0 then Some([]) else None
    else if s[0] == PAD then
      if at >= 2 && at + pads + 1 >= 4 then Some([])
      else Decode(s[1..], at, left, if at >= 2 then pads + 1 else pads)
    else
      var v := Value(s[0]);
      if v.None? then Decode(s[1..], at, left, pads)
      else match at
        case 0 => Decode(s[1..], 1, v.value, 0)
        case 1 => Then(left * 4 + v.value / 16, Decode(s[1..], 2, v.value % 16, 0))
        case 2 => Then(left * 16 + v.value / 4, Decode(s[1..], 3, v.value % 4, 0))
        case 3 => Then(left * 64 + v.value, Decode(s[1..], 0, 0, 0))
  }

  /** "=" * (-len(encoded) % 4) */
  function Padding(n: nat): Text {
    seq((4 - n % 4) % 4, _ => PAD)
  }

  function Padded(encoded: Text): Text {
    encoded + Padding(|encoded|)
  }

  function Decoded(encoded: Text): Option<Text> {
    Decode(Padded(encoded), 0, 0, 0)
  }

  lemma DecodeDigit(v: nat, rest: Text, at: nat, left: nat, pads: nat)
    requires v < 64 && at < 4 && (at == 0 || (at == 1 && left < 64) || (at == 2 && left < 16) || (at == 3 && left < 4))
    ensures Decode([Digit(v)] + rest, at, left, pads) ==
              if at == 0 then Decode(rest, 1, v, 0)
              else if at == 1 then Then(left * 4 + v / 16, Decode(rest, 2, v % 16, 0))
              else if at == 2 then Then(left * 16 + v / 4, Decode(rest, 3, v % 4, 0))
              else Then(left * 64 + v, Decode(rest, 0, 0, 0))
  {
    DigitHasItsValue(v);
    assert ([Digit(v)] + rest)[1..] == rest;
  }

  lemma DecodePads(left: nat)
    requires left < 4
    ensures Decode([PAD, PAD], 2, left, 0) == Some([]) && Decode([PAD, PAD], 2, left * 4, 0) == Some([])
    ensures Decode([PAD], 3, left, 0) == Some([])
  {
    assert [PAD, PAD][1..] == [PAD];
  }

  lemma DecodeDigits(w: nat, x: nat, rest: Text)
    requires w < 64 && x < 64
    ensures Decode([Digit(w), Digit(x)] + rest, 0, 0, 0) == Then(w * 4 + x / 16, Decode(rest, 2, x % 16, 0))
  {
    DecodeDigit(w, [Digit(x)] + rest, 0, 0, 0);
    DecodeDigit(x, rest, 1, w, 0);
    assert [Digit(w), Digit(x)] + rest == [Digit(w)] + ([Digit(x)] + rest);
  }

  lemma DecodeMoreDigits(x: nat, y: nat, z: nat, rest: Text)
    requires x < 16 && y < 64 && z < 64
    ensures Decode([Digit(y), Digit(z)] + rest, 2, x, 0)
            == Then(x * 16 + y / 4, Then(y % 4 * 64 + z, Decode(rest, 0, 0, 0)))
  {
    DecodeDigit(y, [Digit(z)] + rest, 2, x, 0);
    DecodeDigit(z, rest, 3, y % 4, 0);
    assert [Digit(y), Digit(z)] + rest == [Digit(y)] + ([Digit(z)] + rest);
  }

  /** The bits of a byte, split high and low and put together again. */
  lemma Bits(a: byte, b: nat)
    ensures b < 16 ==> a / 4 * 4 + (a % 4 * 16 + b) / 16 == a && (a % 4 * 16 + b) % 16 == b
    ensures b < 4 ==> a / 16 * 16 == a - a % 16 && (a % 16 * 4 + b) / 4 == a % 16 && (a % 16 * 4 + b) % 4 == b
    ensures a / 64 * 64 + a % 64 == a && a / 64 < 4
  {
  }

  lemma DecodeQuad(a: byte, b: byte, c: byte, rest: Text)
    ensures Decode(Quad(a, b, c) + rest, 0, 0, 0) == Then(a, Then(b, Then(c, Decode(rest, 0, 0, 0))))
  {
    var w, x, y, z := a / 4, a % 4 * 16 + b / 16, b % 16 * 4 + c / 64, c % 64;
    assert Quad(a, b, c) + rest == [Digit(w), Digit(x)] + ([Digit(y), Digit(z)] + rest);
    DecodeDigits(w, x, [Digit(y), Digit(z)] + rest);
    Bits(a, b / 16);
    assert x % 16 == b / 16;
    DecodeMoreDigits(b / 16, y, z, rest);
    MoreBits(b, c);
  }

  lemma MoreBits(b: byte, c: byte)
    ensures var y := b % 16 * 4 + c / 64; b / 16 * 16 + y / 4 == b && y % 4 * 64 + c % 64 == c
  {
    Bits(b, c / 64);
    Bits(c, 0);
  }

  lemma DecodeOne(a: byte)
    ensures Decode([Digit(a / 4), Digit(a % 4 * 16)] + [PAD, PAD], 0, 0, 0) == Some([a])
  {
    Bits(a, 0);
    DecodeDigits(a / 4, a % 4 * 16, [PAD, PAD]);
    DecodePads(0);
    assert [a] + [] == [a];
  }

  lemma DecodeTwo(a: byte, b: byte)
    ensures Decode([Digit(a / 4), Digit(a % 4 * 16 + b / 16)] + ([Digit(b % 16 * 4)] + [PAD]), 0, 0, 0) == Some([a, b])
  {
    var x, y := a % 4 * 16 + b / 16, b % 16 * 4;
    Bits(a, b / 16);
    Bits(b, 0);
    DecodeDigits(a / 4, x, [Digit(y)] + [PAD]);
    DecodeDigit(y, [PAD], 2, x % 16, 0);
    DecodePads(y % 4);
    assert [b] + [] == [b] && [a] + [b] == [a, b];
  }

  /** The stripped padding is recovered from the length alone, and decoding gives the
      bytes back. */
  lemma {:induction false} DecodeUndoesEncode(raw: Text)
    ensures Decoded(Encode(raw)) == Some(raw)
    decreases |raw|
  {
    if |raw| == 0 {
      NothingDecodes(raw);
    } else if |raw| == 1 {
      OneByteDecodes(raw);
    } else if |raw| == 2 {
      TwoBytesDecode(raw);
    } else {
      DecodeUndoesEncode(raw[3..]);
      DecodeOneQuadMore(raw);
      ThreeAndTheRest(raw);
    }
  }

  lemma NothingDecodes(raw: Text)
    requires |raw| == 0
    ensures Decoded(Encode(raw)) == Some(raw)
  {
    assert Padded(Encode(raw)) == [];
  }

  lemma PaddedOne(a: byte)
    ensures Padded(Encode([a])) == [Digit(a / 4), Digit(a % 4 * 16)] + [PAD, PAD]
  {
  }

  lemma PaddedTwo(a: byte, b: byte)
    ensures Padded(Encode([a, b])) == [Digit(a / 4), Digit(a % 4 * 16 + b / 16)] + ([Digit(b % 16 * 4)] + [PAD])
  {
    var e := [Digit(a / 4), Digit(a % 4 * 16 + b / 16), Digit(b % 16 * 4)];
    assert Encode([a, b]) == e && Padding(3) == [PAD];
  }

  lemma PaddedMore(quad: Text, rest: Text)
    requires |quad| == 4
    ensures Padded(quad + rest) == quad + Padded(rest)
  {
    assert |quad + rest| % 4 == |rest| % 4;
  }

  lemma PaddedQuad(raw: Text)
    requires |raw| >= 3
    ensures Padded(Encode(raw)) == Quad(raw[0], raw[1], raw[2]) + Padded(Encode(raw[3..]))
  {
    PaddedMore(Quad(raw[0], raw[1], raw[2]), Encode(raw[3..]));
  }

  lemma OneByteDecodes(raw: Text)
    requires |raw| == 1
    ensures Decoded(Encode(raw)) == Some(raw)
  {
    assert raw == [raw[0]];
    PaddedOne(raw[0]);
    DecodeOne(raw[0]);
  }

  lemma TwoBytesDecode(raw: Text)
    requires |raw| == 2
    ensures Decoded(Encode(raw)) == Some(raw)
  {
    assert raw == [raw[0], raw[1]];
    PaddedTwo(raw[0], raw[1]);
    DecodeTwo(raw[0], raw[1]);
  }

  lemma QuadMore(a: byte, b: byte, c: byte, encoded: Text, tail: Text)
    requires Decode(encoded, 0, 0, 0) == Some(tail)
    ensures Decode(Quad(a, b, c) + encoded, 0, 0, 0) == Some([a, b, c] + tail)
  {
    DecodeQuad(a, b, c, encoded);
    assert [a] + ([b] + ([c] + tail)) == [a, b, c] + tail;
  }

  lemma ThreeAndTheRest(raw: Text)
    requires |raw| >= 3
    ensures raw == [raw[0], raw[1], raw[2]] + raw[3..]
  {
  }

  lemma DecodeOneQuadMore(raw: Text)
    requires |raw| >= 3 && Decoded(Encode(raw[3..])) == Some(raw[3..])
    ensures Decoded(Encode(raw)) == Some([raw[0], raw[1], raw[2]] + raw[3..])
  {
    PaddedQuad(raw);
    QuadMore(raw[0], raw[1], raw[2], Padded(Encode(raw[3..])), raw[3..]);
  }

  lemma {:induction false} EncodedSize(raw: Text)
    ensures |Encode(raw)| == (4 * |raw| + 2) / 3
    ensures forall i :: 0 <= i < |Encode(raw)| ==> InAlphabet(Encode(raw)[i])
    decreases |raw|
  {
    if |raw| >= 3 {
      EncodedSize(raw[3..]);
    }
  }

  /** The last one or two bytes are encoded as if zeros followed, and cut. */
  lemma {:induction false} EncodesAsIfZerosFollowed(raw: Text)
    ensures |Encode(raw)| <= |Encode(raw + [0])| && Encode(raw + [0])[..|Encode(raw)|] == Encode(raw)
    decreases |raw|
  {
    if |raw| >= 3 {
      EncodesAsIfZerosFollowed(raw[3..]);
      QuadFirst(raw);
    } else {
      LastBytes(raw);
    }
  }

  lemma LastBytes(raw: Text)
    requires |raw| < 3
    ensures |Encode(raw)| <= |Encode(raw + [0])| && Encode(raw + [0])[..|Encode(raw)|] == Encode(raw)
  {
    if |raw| == 2 {
      assert Encode((raw + [0])[3..]) == [];
    }
  }

  lemma QuadFirst(raw: Text)
    requires |raw| >= 3
    ensures var q := Quad(raw[0], raw[1], raw[2]);
            Encode(raw) == q + Encode(raw[3..]) && Encode(raw + [0]) == q + Encode(raw[3..] + [0])
  {
    assert (raw + [0])[3..] == raw[3..] + [0];
  }

  lemma DigitsDecode(w: nat, x: nat, y: nat, z: nat, rest: Text)
    requires w < 64 && x < 64 && y < 64 && z < 64 && Decode(rest, 0, 0, 0).Some?
    ensures Decode([Digit(w), Digit(x), Digit(y), Digit(z)] + rest, 0, 0, 0)
            == Some([w * 4 + x / 16, x % 16 * 16 + y / 4, y % 4 * 64 + z] + Decode(rest, 0, 0, 0).value)
  {
    var tail := Decode(rest, 0, 0, 0).value;
    DecodeDigits(w, x, [Digit(y), Digit(z)] + rest);
    DecodeMoreDigits(x % 16, y, z, rest);
    assert [Digit(w), Digit(x), Digit(y), Digit(z)] + rest == [Digit(w), Digit(x)] + ([Digit(y), Digit(z)] + rest);
    var a, b, c := w * 4 + x / 16, x % 16 * 16 + y / 4, y % 4 * 64 + z;
    assert [a] + ([b] + ([c] + tail)) == [a, b, c] + tail;
  }

  /** Any four digits decode to the three bytes of their 24 bits. */
  lemma DigitsDecodeToTheirBits(w: nat, x: nat, y: nat, z: nat, rest: Text)
    requires w < 64 && x < 64 && y < 64 && z < 64 && Decode(rest, 0, 0, 0).Some?
    ensures var n := ((w * 64 + x) * 64 + y) * 64 + z;
            Decode([Digit(w), Digit(x), Digit(y), Digit(z)] + rest, 0, 0, 0)
            == Some([n / 65536, n / 256 % 256, n % 256] + Decode(rest, 0, 0, 0).value)
  {
    NumberBits(w, x, y, z);
    DigitsDecode(w, x, y, z, rest);
  }

  /** Two or three with their padding decode to the whole bytes among their bits; those
      left over are not looked at. */
  lemma LastDigitsDecode(w: nat, x: nat, y: nat)
    requires w < 64 && x < 64 && y < 64
    ensures Decode([Digit(w), Digit(x), Digit(y)] + [PAD], 0, 0, 0)
            == Some([(w * 64 + x) / 16, (x % 16 * 64 + y) / 4])
    ensures Decode([Digit(w), Digit(x)] + [PAD, PAD], 0, 0, 0) == Some([(w * 64 + x) / 16])
  {
    LastTwo(w, x, y);
    LastOne(w, x);
    assert (w * 64 + x) / 16 == w * 4 + x / 16;
    assert (x % 16 * 64 + y) / 4 == x % 16 * 16 + y / 4;
  }

  lemma LastTwo(w: nat, x: nat, y: nat)
    requires w < 64 && x < 64 && y < 64
    ensures Decode([Digit(w), Digit(x), Digit(y)] + [PAD], 0, 0, 0) == Some([w * 4 + x / 16, x % 16 * 16 + y / 4])
  {
    var a, b := w * 4 + x / 16, x % 16 * 16 + y / 4;
    DecodeDigits(w, x, [Digit(y)] + [PAD]);
    DecodeDigit(y, [PAD], 2, x % 16, 0);
    DecodePads(y % 4);
    assert [Digit(w), Digit(x), Digit(y)] + [PAD] == [Digit(w), Digit(x)] + ([Digit(y)] + [PAD]);
    assert [b] + [] == [b] && [a] + [b] == [a, b];
  }

  lemma LastOne(w: nat, x: nat)
    requires w < 64 && x < 64
    ensures Decode([Digit(w), Digit(x)] + [PAD, PAD], 0, 0, 0) == Some([w * 4 + x / 16])
  {
    var a := w * 4 + x / 16;
    DecodeDigits(w, x, [PAD, PAD]);
    TwoPads(x % 16);
    assert [a] + [] == [a];
  }

  lemma TwoPads(left: nat)
    requires left < 16
    ensures Decode([PAD, PAD], 2, left, 0) == Some([])
  {
    assert [PAD, PAD][1..] == [PAD];
  }

  lemma NumberBits(w: nat, x: nat, y: nat, z: nat)
    requires w < 64 && x < 64 && y < 64 && z < 64
    ensures var n := ((w * 64 + x) * 64 + y) * 64 + z;
            n / 65536 == w * 4 + x / 16 && n / 256 % 256 == x % 16 * 16 + y / 4 && n % 256 == y % 4 * 64 + z
  {
    var n := ((w * 64 + x) * 64 + y) * 64 + z;
    var a, b, c := w * 4 + x / 16, x % 16 * 16 + y / 4, y % 4 * 64 + z;
    assert n == (a * 256 + b) * 256 + c;
    assert n / 256 == a * 256 + b;
  }

  /** What is not in either alphabet is passed over; + and / stand for - and _. */
  lemma DecoderIsLenient(c: byte, rest: Text, at: nat, left: nat, pads: nat)
    requires at < 4 && (at == 0 || (at == 1 && left < 64) || (at == 2 && left < 16) || (at == 3 && left < 4))
    ensures !InAlphabet(c) && c != PAD && c as char != '+' && c as char != '/' ==>
              Decode([c] + rest, at, left, pads) == Decode(rest, at, left, pads)
    ensures Value(43) == Value(45) && Value(47) == Value(95)
    ensures InAlphabet(c) ==> Value(c).Some? && Digit(Value(c).value) == c
  {
    assert ([c] + rest)[1..] == rest;
  }

  /** A text that ends within a byte decodes to nothing. */
  lemma EndsWithinAByte(v: nat)
    requires v < 64
    ensures Decode([Digit(v)], 0, 0, 0) == None && Decoded([Digit(v)]) == None
  {
    DecodeDigit(v, [], 0, 0, 0);
    assert [Digit(v)] + [] == [Digit(v)];
    assert Padded([Digit(v)]) == [Digit(v)] + [PAD, PAD, PAD];
    DecodeDigit(v, [PAD, PAD, PAD], 0, 0, 0);
    assert [PAD, PAD, PAD][1..] == [PAD, PAD] && [PAD, PAD][1..] == [PAD] && [PAD][1..] == [];
    assert Decode([PAD, PAD, PAD], 1, v, 0) == Decode([PAD, PAD], 1, v, 0);
    assert Decode([PAD, PAD], 1, v, 0) == Decode([PAD], 1, v, 0) == Decode([], 1, v, 0) == None;
  }

  // ----- ids -----

  type Mac = (Text, Text) -> Text

  predicate IsHex(c: byte) {
    48 <= c <= 57 || 97 <= c <= 102
  }

  ghost predicate IsMac(mac: Mac) {
    forall secret, message :: |mac(secret, message)| == 32 && forall i :: 0 <= i < 32 ==> IsHex(mac(secret, message)[i])
  }

  function Join(a: Text, b: Text): Text {
    a + ([SLASH] + b)
  }

  function Signature(mac: Mac, secret: Text, name: Text, job: Text): Text {
    mac(secret, Join(name, job))
  }

  function Joined(name: Text, job: Text, signed: Text): Text {
    Join(Join(name, job), signed)
  }

  function VideoId(mac: Mac, secret: Text, name: Text, job: Text): Text {
    PREFIX + Encode(Joined(name, job, Signature(mac, secret, name, job)))
  }

  predicate Plain(s: Text) {
    forall i :: 0 <= i < |s| ==> InAlphabet(s[i])
  }

  /** JOB: letters, digits, _ and -, 1 to 128 of them; its $ also matches before a
      newline that ends the text. */
  predicate JobMatches(job: Text) {
    || (1 <= |job| <= 128 && Plain(job))
    || (2 <= |job| <= 129 && Plain(job[..|job| - 1]) && job[|job| - 1] == 10)
  }

  function LastSlash(s: Text): (i: Option<nat>)
    ensures i.Some? ==> i.value < |s| && s[i.value] == SLASH && SLASH !in s[i.value + 1..]
    ensures i.None? ==> SLASH !in s
  {
    if s == [] then None
    else if s[|s| - 1] == SLASH then Some(|s| - 1)
    else
      var i := LastSlash(s[..|s| - 1]);
      assert s == s[..|s| - 1] + [s[|s| - 1]];
      assert i.Some? ==> s[i.value + 1..] == s[..|s| - 1][i.value + 1..] + [s[|s| - 1]];
      i
  }

  predicate Ascii(s: Text) {
    forall i :: 0 <= i < |s| ==> s[i] < 128
  }

  predicate StartsWith(s: Text, prefix: Text) {
    |prefix| <= |s| && s[..|prefix|] == prefix
  }

  /** What an id's encoded part decodes to: the decoder refuses characters that are
      not ASCII, and what it gives has to be text. */
  function RawOf(utf8: Text -> bool, id: Text): Option<Text> {
    if !StartsWith(id, PREFIX) || !Ascii(id[|PREFIX|..]) then None
    else
      var raw := Decoded(id[|PREFIX|..]);
      if raw.Some? && utf8(raw.value) then raw else None
  }

  function JobOf(mac: Mac, utf8: Text -> bool, secret: Text, served: Text, id: Text): Result {
    match RawOf(utf8, id)
    case None => NotFound
    case Some(raw) => JobIn(mac, secret, served, raw)
  }

  datatype Parts = Parts(name: Text, job: Text, signed: Text)

  /** rsplit("/", 2), where it finds three parts. */
  function Split(raw: Text): Option<Parts> {
    var last := LastSlash(raw);
    if last.None? then None
    else
      var front := raw[..last.value];
      var first := LastSlash(front);
      if first.None? then None
      else Some(Parts(front[..first.value], front[first.value + 1..], raw[last.value + 1..]))
  }

  function JobIn(mac: Mac, secret: Text, served: Text, raw: Text): Result {
    match Split(raw)
    case None => NotFound
    case Some(p) =>
      if p.name != served || !JobMatches(p.job) then NotFound
      else if !Ascii(p.signed) then Raises
      else if p.signed != Signature(mac, secret, p.name, p.job) then NotFound
      else Job(p.job)
  }

  lemma {:induction false} LastSlashAt(s: Text, k: nat)
    requires k < |s| && s[k] == SLASH && SLASH !in s[k + 1..]
    ensures LastSlash(s) == Some(k)
  {
    var n := |s| - 1;
    if k < n {
      assert s[k + 1..][n - k - 1] == s[n];
      assert s[k + 1..] == s[..n][k + 1..] + [s[n]];
      LastSlashAt(s[..n], k);
    }
  }

  lemma LastSlashIs(before: Text, after: Text)
    requires SLASH !in after
    ensures var s := Join(before, after);
            LastSlash(s) == Some(|before|) && s[..|before|] == before && s[|before| + 1..] == after
  {
    var s := Join(before, after);
    assert s[|before| + 1..] == after;
    LastSlashAt(s, |before|);
  }

  lemma JoinsAtSlash(s: Text, k: nat)
    requires k < |s| && s[k] == SLASH
    ensures s == Join(s[..k], s[k + 1..])
  {
  }

  /** The right split finds the parts of a join, if the last two hold no slash. */
  lemma SplitUndoesJoin(name: Text, job: Text, signed: Text)
    requires SLASH !in job && SLASH !in signed
    ensures Split(Joined(name, job, signed)) == Some(Parts(name, job, signed))
  {
    LastSlashIs(Join(name, job), signed);
    LastSlashIs(name, job);
  }

  /** And the parts it finds join to what was split. */
  lemma JoinUndoesSplit(raw: Text)
    requires Split(raw).Some?
    ensures var p := Split(raw).value; Joined(p.name, p.job, p.signed) == raw && SLASH !in p.job && SLASH !in p.signed
  {
    var last := LastSlash(raw).value;
    var front := raw[..last];
    JoinsAtSlash(raw, last);
    JoinsAtSlash(front, LastSlash(front).value);
  }

  /** A job: 1 to 128 letters, digits, - and _, and then at most one newline. */
  lemma JobMatchesExactly(job: Text)
    ensures JobMatches(job) <==>
              exists core: Text :: 1 <= |core| <= 128 && (job == core || job == core + [10])
                                   && forall i :: 0 <= i < |core| ==> IsJobCharacter(core[i])
  {
    if JobMatches(job) {
      var core := if 1 <= |job| <= 128 && Plain(job) then job else job[..|job| - 1];
      assert job == core || job == core + [10];
    }
    forall core: Text | 1 <= |core| <= 128 && (job == core || job == core + [10])
                        && forall i :: 0 <= i < |core| ==> IsJobCharacter(core[i])
      ensures JobMatches(job)
    {
      if job != core {
        assert job[..|job| - 1] == core;
      }
    }
  }

  predicate IsJobCharacter(c: byte) {
    var d := c as char;
    'A' <= d <= 'Z' || 'a' <= d <= 'z' || '0' <= d <= '9' || d == '_' || d == '-'
  }

  lemma JobsHoldNoSlash(job: Text)
    requires JobMatches(job)
    ensures SLASH !in job
  {
    assert !InAlphabet(SLASH);
    forall i | 0 <= i < |job| ensures job[i] != SLASH {
      assert i < |job| - 1 ==> job[..|job| - 1][i] == job[i];
    }
  }

  lemma MacsHoldNoSlash(mac: Mac, secret: Text, message: Text)
    requires IsMac(mac)
    ensures SLASH !in mac(secret, message) && Ascii(mac(secret, message))
  {
  }

  /** What a decoded text names, exactly. */
  lemma JobInExactly(mac: Mac, secret: Text, served: Text, raw: Text, job: Text)
    requires IsMac(mac)
    ensures JobIn(mac, secret, served, raw) == Job(job)
            <==> raw == Joined(served, job, Signature(mac, secret, served, job)) && JobMatches(job)
  {
    var signed := Signature(mac, secret, served, job);
    MacsHoldNoSlash(mac, secret, Join(served, job));
    if JobMatches(job) {
      JobsHoldNoSlash(job);
      SplitUndoesJoin(served, job, signed);
    }
    if JobIn(mac, secret, served, raw).Job? {
      JoinUndoesSplit(raw);
    }
  }

  /** The text names the served deployment and a job, and is signed with something
      that is not ASCII. */
  ghost predicate SignedOddly(served: Text, raw: Text) {
    exists job, signed :: raw == Joined(served, job, signed) && JobMatches(job) && SLASH !in signed && !Ascii(signed)
  }

  lemma JobInRaises(mac: Mac, secret: Text, served: Text, raw: Text)
    ensures JobIn(mac, secret, served, raw) == Raises <==> SignedOddly(served, raw)
  {
    if JobIn(mac, secret, served, raw) == Raises {
      JoinUndoesSplit(raw);
    }
    forall job, signed | raw == Joined(served, job, signed) && JobMatches(job) && SLASH !in signed && !Ascii(signed)
      ensures JobIn(mac, secret, served, raw) == Raises
    {
      JobsHoldNoSlash(job);
      SplitUndoesJoin(served, job, signed);
    }
  }

  lemma EncodedIsAscii(raw: Text)
    ensures var id := PREFIX + Encode(raw);
            StartsWith(id, PREFIX) && id[|PREFIX|..] == Encode(raw) && Plain(Encode(raw)) && Ascii(Encode(raw))
  {
    EncodedSize(raw);
  }

  /** An id made of any text decodes to that text. */
  lemma RawOfEncoded(utf8: Text -> bool, raw: Text)
    requires utf8(raw)
    ensures RawOf(utf8, PREFIX + Encode(raw)) == Some(raw)
  {
    EncodedIsAscii(raw);
    DecodeUndoesEncode(raw);
  }

  /** job_of finds a job in an id exactly when the id is video_ and ASCII after it, and
      what follows decodes to the served name, the job and the keyed hash of the two,
      with slashes between them. */
  lemma JobOfExactly(mac: Mac, utf8: Text -> bool, secret: Text, served: Text, id: Text, job: Text)
    requires IsMac(mac)
    ensures JobOf(mac, utf8, secret, served, id) == Job(job)
            <==> var raw := served + [47] + job + [47] + mac(secret, served + [47] + job);
                 && JobMatches(job) && utf8(raw)
                 && |id| >= 6 && id[..6] == [118, 105, 100, 101, 111, 95]
                 && (forall i :: 6 <= i < |id| ==> id[i] < 128)
                 && Decoded(id[6..]) == Some(raw)
  {
    SignedText(mac, secret, served, job);
    AsciiAfter(id);
    if RawOf(utf8, id).Some? {
      JobInExactly(mac, secret, served, RawOf(utf8, id).value, job);
    }
  }

  lemma AsciiAfter(id: Text)
    ensures |id| >= 6 ==> (Ascii(id[6..]) <==> forall i :: 6 <= i < |id| ==> id[i] < 128)
  {
    if |id| >= 6 && Ascii(id[6..]) {
      forall i | 6 <= i < |id| ensures id[i] < 128 {
        assert id[i] == id[6..][i - 6];
      }
    }
  }

  /** What a video id holds. */
  lemma SignedText(mac: Mac, secret: Text, name: Text, job: Text)
    ensures Joined(name, job, Signature(mac, secret, name, job))
            == name + [47] + job + [47] + mac(secret, name + [47] + job)
  {
    assert Join(name, job) == name + [47] + job;
  }

  /** video_id is video_ and the encoding of the name, the job and their keyed hash. */
  lemma VideoIdSigns(mac: Mac, secret: Text, name: Text, job: Text)
    ensures var id := VideoId(mac, secret, name, job);
            && |id| >= 6 && id[..6] == [118, 105, 100, 101, 111, 95] && PAD !in id[6..]
            && Decoded(id[6..]) == Some(name + [47] + job + [47] + mac(secret, name + [47] + job))
  {
    var raw := Joined(name, job, Signature(mac, secret, name, job));
    SignedText(mac, secret, name, job);
    DecodeUndoesEncode(raw);
    EncodedSize(raw);
    assert VideoId(mac, secret, name, job)[6..] == Encode(raw);
  }

  /** An id that was signed for one job and names another is accepted exactly when the
      keyed hash cannot tell the two messages apart. */
  lemma ForgedExactlyWhen(mac: Mac, utf8: Text -> bool, secret: Text, name: Text, job: Text, other: Text, id: Text)
    requires IsMac(mac) && JobMatches(other)
    requires var raw := name + [47] + other + [47] + mac(secret, name + [47] + job);
             utf8(raw) && id == PREFIX + Encode(raw)
    ensures JobOf(mac, utf8, secret, name, id) == Job(other)
            <==> mac(secret, name + [47] + other) == mac(secret, name + [47] + job)
    ensures JobOf(mac, utf8, secret, name, id) == Job(other) || JobOf(mac, utf8, secret, name, id) == NotFound
  {
    var sig := mac(secret, name + [47] + job);
    assert name + [47] + other + [47] + sig == Joined(name, other, sig);
    assert name + [47] + other == Join(name, other);
    RawOfEncoded(utf8, Joined(name, other, sig));
    MacsHoldNoSlash(mac, secret, name + [47] + job);
    JobsHoldNoSlash(other);
    SplitUndoesJoin(name, other, sig);
  }

  /** Nor does another deployment's id name a video. */
  lemma OtherNamesAreNotFound(mac: Mac, utf8: Text -> bool, secret: Text, name: Text, job: Text, served: Text)
    requires IsMac(mac) && JobMatches(job) && served != name
    ensures JobOf(mac, utf8, secret, served, VideoId(mac, secret, name, job)) == NotFound
  {
    var raw := Joined(name, job, Signature(mac, secret, name, job));
    EncodedIsAscii(raw);
    DecodeUndoesEncode(raw);
    MacsHoldNoSlash(mac, secret, Join(name, job));
    JobsHoldNoSlash(job);
    SplitUndoesJoin(name, job, Signature(mac, secret, name, job));
  }

  /** job_of raises, where its callers expect "no such video", exactly for an ASCII
      id that decodes to the served name, a job and a signature that is not ASCII. */
  lemma JobOfRaisesExactlyWhen(mac: Mac, utf8: Text -> bool, secret: Text, served: Text, id: Text)
    ensures JobOf(mac, utf8, secret, served, id) == Raises
            <==> && StartsWith(id, PREFIX) && Ascii(id[|PREFIX|..])
                 && exists raw :: Decoded(id[|PREFIX|..]) == Some(raw) && utf8(raw) && SignedOddly(served, raw)
  {
    if RawOf(utf8, id).Some? {
      JobInRaises(mac, secret, served, RawOf(utf8, id).value);
    }
  }

  /** Every such text makes an id that raises, and the route takes it if it is short
      enough. */
  lemma OddIdsRaise(mac: Mac, utf8: Text -> bool, secret: Text, served: Text, job: Text, signed: Text, id: Text)
    requires JobMatches(job) && SLASH !in signed && !Ascii(signed) && utf8(Joined(served, job, signed))
    requires id == PREFIX + Encode(Joined(served, job, signed))
    ensures JobOf(mac, utf8, secret, served, id) == Raises
    ensures RouteTakes(id) <==> |served| + |job| + |signed| + 2 <= 192
  {
    var raw := Joined(served, job, signed);
    RawOfEncoded(utf8, raw);
    JobInRaises(mac, secret, served, raw);
    RouteTakesEncoded(raw);
  }

  /** The id of a job gives the job back, whatever slashes the name holds. */
  lemma JobOfUndoesVideoId(mac: Mac, utf8: Text -> bool, secret: Text, name: Text, job: Text)
    requires IsMac(mac) && JobMatches(job) && utf8(Joined(name, job, Signature(mac, secret, name, job)))
    ensures JobOf(mac, utf8, secret, name, VideoId(mac, secret, name, job)) == Job(job)
  {
    var raw := Joined(name, job, Signature(mac, secret, name, job));
    RawOfEncoded(utf8, raw);
    JobInExactly(mac, secret, name, raw, job);
  }

  /** No two names and jobs have the same id. */
  lemma VideoIdsDiffer(mac: Mac, secret: Text, n: Text, j: Text, m: Text, k: Text)
    requires IsMac(mac) && JobMatches(j) && JobMatches(k) && VideoId(mac, secret, n, j) == VideoId(mac, secret, m, k)
    ensures n == m && j == k
  {
    var a, b := Joined(n, j, Signature(mac, secret, n, j)), Joined(m, k, Signature(mac, secret, m, k));
    assert VideoId(mac, secret, n, j)[|PREFIX|..] == Encode(a);
    assert VideoId(mac, secret, m, k)[|PREFIX|..] == Encode(b);
    DecodeUndoesEncode(a);
    DecodeUndoesEncode(b);
    JobsHoldNoSlash(j);
    JobsHoldNoSlash(k);
    SplitUndoesJoin(n, j, Signature(mac, secret, n, j));
    SplitUndoesJoin(m, k, Signature(mac, secret, m, k));
  }

  /** The id's part of the route: video_ and 1 to 256 characters of the alphabet. */
  predicate RouteTakes(id: Text) {
    StartsWith(id, PREFIX) && 1 <= |id| - |PREFIX| <= 256 && Plain(id[|PREFIX|..])
  }

  lemma RouteTakesEncoded(raw: Text)
    ensures RouteTakes(PREFIX + Encode(raw)) <==> 1 <= |raw| <= 192
  {
    EncodedIsAscii(raw);
    EncodedSize(raw);
  }

  /** An id fits the route exactly when name and job come to at most 158 bytes. */
  lemma RouteTakesExactly(mac: Mac, secret: Text, name: Text, job: Text)
    requires IsMac(mac)
    ensures RouteTakes(VideoId(mac, secret, name, job)) <==> |name| + |job| + 34 <= 192
  {
    RouteTakesEncoded(Joined(name, job, Signature(mac, secret, name, job)));
  }
}