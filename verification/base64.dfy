/** The two Base64 codecs: archive chunks (both directions on the device) and Wi-Fi text (encoded
    by the browser, decoded on the device). Both accept only canonical padded text
    (sections 3.5 and 4 of RFC 4648). */
module Base64 {
  import opened Types

  const CHUNK: nat := 96

  function Letter(d: nat): (c: char)
    requires d < 64
    ensures Digit(c) == d && c != '='
  {
    if d < 26 then ('A' as int + d) as char
    else if d < 52 then ('a' as int + d - 26) as char
    else if d < 62 then ('0' as int + d - 52) as char
    else if d == 62 then '+' else '/'
  }

  function Digit(c: char): (d: int)
    ensures -1 <= d < 64
  {
    if 'A' <= c <= 'Z' then c as int - 'A' as int
    else if 'a' <= c <= 'z' then c as int - 'a' as int + 26
    else if '0' <= c <= '9' then c as int - '0' as int + 52
    else if c == '+' then 62
    else if c == '/' then 63
    else -1
  }

  /** Four characters for up to three bytes. */
  function EncodeGroup(data: seq<Byte>): (s: string)
    requires data != []
    ensures |s| == 4
  {
    var x: int, y: int, z: int := data[0], if |data| > 1 then data[1] else 0, if |data| > 2 then data[2] else 0;
    var w := x * 65536 + y * 256 + z;
    [Letter(w / 262144), Letter(w / 4096 % 64),
     if |data| > 1 then Letter(w / 64 % 64) else '=', if |data| > 2 then Letter(w % 64) else '=']
  }

  function Encode(data: seq<Byte>): string
  {
    if data == [] then []
    else if |data| <= 3 then EncodeGroup(data)
    else EncodeGroup(data[..3]) + Encode(data[3..])
  }

  /** The bytes of one group; padding is allowed only in the last one and its spare bits are zero. */
  function DecodeGroup(s: string, last: bool): (r: Option<seq<Byte>>)
    requires |s| == 4
    ensures r.Some? ==> 1 <= |r.value| <= 3
  {
    var a, b := Digit(s[0]), Digit(s[1]);
    var c := if s[2] == '=' then 0 else Digit(s[2]);
    var d := if s[3] == '=' then 0 else Digit(s[3]);
    var pad := if s[2] == '=' then 2 else if s[3] == '=' then 1 else 0;
    if a < 0 || b < 0 || c < 0 || d < 0 || (pad > 0 && !last) || (pad == 2 && (s[3] != '=' || b % 16 != 0))
        || (pad == 1 && c % 4 != 0)
    then None
    else
      var w := a * 262144 + b * 4096 + c * 64 + d;
      var bytes: seq<Byte> := [w / 65536 % 256, w / 256 % 256, w % 256];
      Some(bytes[..3 - pad])
  }

  function Decode(s: string): (r: Option<seq<Byte>>)
    ensures r.Some? ==> |r.value| <= 3 * |s| / 4
  {
    if s == [] then Some([])
    else if |s| < 4 then None
    else
      var head :- DecodeGroup(s[..4], |s| == 4);
      var tail :- Decode(s[4..]);
      Some(head + tail)
  }

  lemma {:induction false} EncodeLength(data: seq<Byte>)
    ensures |Encode(data)| == (|data| + 2) / 3 * 4
  {
    hide EncodeGroup;
    if |data| > 3 {
      EncodeLength(data[3..]);
      assert (|data| + 2) / 3 == 1 + (|data[3..]| + 2) / 3;
    }
  }

  lemma EncodedAligned(data: seq<Byte>)
    ensures |Encode(data)| % 4 == 0
  {
    hide Encode;
    EncodeLength(data);
  }

  lemma Multiples(a: nat, b: nat, m: nat)
    ensures a < b ==> a * m + m <= b * m
  {
    if a < b {
      NonNegative(b - a - 1, m);
      assert b * m == a * m + m + (b - a - 1) * m;
    }
  }

  lemma {:induction false} NonNegative(x: nat, m: nat)
    ensures x * m >= 0
  {
    if x > 0 {
      NonNegative(x - 1, m);
      assert x * m == (x - 1) * m + m;
    }
  }

  /** A quotient and remainder are determined by their recomposition. */
  lemma Quotient(w: nat, m: nat, q: nat, r: nat)
    requires w == q * m + r && r < m
    ensures w / m == q && w % m == r
  {
    Multiples(w / m, q, m);
    Multiples(q, w / m, m);
  }

  /** Three bytes as four six-bit digits. */
  lemma WordDigits(x: nat, y: nat, z: nat)
    requires x < 256 && y < 256 && z < 256
    ensures var w := x * 65536 + y * 256 + z;
            && w / 262144 == x / 4 && w / 4096 % 64 == x % 4 * 16 + y / 16
            && w / 64 % 64 == y % 16 * 4 + z / 64 && w % 64 == z % 64
  {
    var w := x * 65536 + y * 256 + z;
    Quotient(w, 262144, x / 4, x % 4 * 65536 + y * 256 + z);
    Quotient(w, 4096, x * 16 + y / 16, y % 16 * 256 + z);
    Quotient(x * 16 + y / 16, 64, x / 4, x % 4 * 16 + y / 16);
    Quotient(w, 64, x * 1024 + y * 4 + z / 64, z % 64);
    Quotient(x * 1024 + y * 4 + z / 64, 64, x * 16 + y / 16, y % 16 * 4 + z / 64);
  }

  lemma WordBytes(x: nat, y: nat, z: nat)
    requires x < 256 && y < 256 && z < 256
    ensures var w := x * 65536 + y * 256 + z;
            w / 65536 % 256 == x && w / 256 % 256 == y && w % 256 == z
  {
    var w := x * 65536 + y * 256 + z;
    Quotient(w, 65536, x, y * 256 + z);
    Quotient(w, 256, x * 256 + y, z);
    Quotient(x * 256 + y, 256, x, y);
  }

  /** Four six-bit digits are three bytes; spare zero bits are zero bytes. */
  lemma DigitsAreBytes(a: nat, b: nat, c: nat, d: nat)
    requires a < 64 && b < 64 && c < 64 && d < 64
    ensures var x, y, z := a * 4 + b / 16, b % 16 * 16 + c / 4, c % 4 * 64 + d;
            && a * 262144 + b * 4096 + c * 64 + d == x * 65536 + y * 256 + z && x < 256 && y < 256 && z < 256
            && x / 4 == a && x % 4 * 16 + y / 16 == b && y % 16 * 4 + z / 64 == c && z % 64 == d
            && (b % 16 == 0 && c == 0 ==> y == 0) && (c % 4 == 0 && d == 0 ==> z == 0)
  {
    Quotient(a * 4 + b / 16, 4, a, b / 16);
    Quotient(b % 16 * 16 + c / 4, 16, b % 16, c / 4);
    Quotient(c % 4 * 64 + d, 64, c % 4, d);
  }

  function ByteOf(data: seq<Byte>, k: nat): Byte
  {
    if k < |data| then data[k] else 0
  }

  lemma EncodedDigits(data: seq<Byte>)
    requires 1 <= |data| <= 3
    ensures var s, x, y, z := EncodeGroup(data), ByteOf(data, 0), ByteOf(data, 1), ByteOf(data, 2);
            && Digit(s[0]) == x / 4 && Digit(s[1]) == x % 4 * 16 + y / 16
            && (if |data| > 1 then s[2] != '=' && Digit(s[2]) == y % 16 * 4 + z / 64 else s[2] == '=')
            && (if |data| > 2 then s[3] != '=' && Digit(s[3]) == z % 64 else s[3] == '=')
  {
    hide Letter, Digit;
    WordDigits(ByteOf(data, 0), ByteOf(data, 1), ByteOf(data, 2));
  }

  /** The digits of a group's word, and the word they recompose. */
  lemma GroupDecodes(data: seq<Byte>, last: bool)
    requires 1 <= |data| <= 3 && (last || |data| == 3)
    ensures DecodeGroup(EncodeGroup(data), last) == Some(data)
  {
    hide EncodeGroup, Digit;
    var x, y, z := ByteOf(data, 0), ByteOf(data, 1), ByteOf(data, 2);
    EncodedDigits(data);
    WordBytes(x, y, z);
    Recomposed(x, y, z);
    assert data == [x, y, z][..|data|];
  }

  lemma Recomposed(x: nat, y: nat, z: nat)
    requires x < 256 && y < 256 && z < 256
    ensures x / 4 * 262144 + (x % 4 * 16 + y / 16) * 4096 + (y % 16 * 4 + z / 64) * 64 + z % 64 == x * 65536 + y * 256
            + z
    ensures z == 0 ==> z / 64 == 0 && z % 64 == 0 && (y % 16 * 4) % 4 == 0
    ensures y == 0 ==> y % 16 == 0 && y / 16 == 0 && (x % 4 * 16) % 16 == 0
  {
  }

  lemma LetterDigit(c: char)
    requires Digit(c) >= 0
    ensures Letter(Digit(c)) == c
  {
  }

  lemma GroupCanonical(s: string, last: bool)
    requires |s| == 4 && DecodeGroup(s, last).Some?
    ensures EncodeGroup(DecodeGroup(s, last).value) == s
    ensures |DecodeGroup(s, last).value| == 3 || last
  {
    hide Letter, Digit;
    var a, b := Digit(s[0]), Digit(s[1]);
    var c := if s[2] == '=' then 0 else Digit(s[2]);
    var d := if s[3] == '=' then 0 else Digit(s[3]);
    var x, y, z := a * 4 + b / 16, b % 16 * 16 + c / 4, c % 4 * 64 + d;
    DigitsAreBytes(a, b, c, d);
    WordDigits(x, y, z);
    WordBytes(x, y, z);
    LetterDigit(s[0]);
    LetterDigit(s[1]);
    if s[2] != '=' { LetterDigit(s[2]); }
    if s[3] != '=' { LetterDigit(s[3]); }
  }

  /** Decoding inverts encoding, for every byte string. */
  lemma {:induction false} DecodeEncoded(data: seq<Byte>)
    ensures Decode(Encode(data)) == Some(data)
    decreases |data|
  {
    hide EncodeGroup, DecodeGroup;
    if data != [] {
      var head := if |data| <= 3 then data else data[..3];
      GroupDecodes(head, |data| <= 3);
      if |data| <= 3 {
        assert Encode(data)[..4] == Encode(data) && Encode(data)[4..] == [];
        assert data + [] == data;
      } else {
        EncodeLength(data[3..]);
        assert Encode(data)[..4] == EncodeGroup(head) && Encode(data)[4..] == Encode(data[3..]);
        DecodeEncoded(data[3..]);
        assert head + data[3..] == data;
      }
    }
  }

  /** Only encodings are accepted: whatever decodes is the encoding of what it decodes to. */
  lemma {:induction false} DecodedIsCanonical(s: string)
    requires Decode(s).Some?
    ensures Encode(Decode(s).value) == s
    decreases |s|
  {
    hide EncodeGroup, DecodeGroup;
    if s != [] {
      var head := DecodeGroup(s[..4], |s| == 4).value;
      var tail := Decode(s[4..]).value;
      GroupCanonical(s[..4], |s| == 4);
      DecodedIsCanonical(s[4..]);
      assert s == s[..4] + s[4..];
      if |s| == 4 {
        assert tail == [] && head + tail == head;
      } else {
        assert (head + tail)[..3] == head && (head + tail)[3..] == tail;
        DecodedNonEmpty(s[4..]);
      }
    }
  }

  lemma DecodedNonEmpty(s: string)
    requires s != [] && Decode(s).Some?
    ensures Decode(s).value != []
  {
  }

  // ---------------------------------------------------------------------------------------
  // Section 4 of RFC 4648

  const UPPER: string := "ABCDEFGHIJKLMNOPQRSTUVWXYZ"
  const LOWER: string := "abcdefghijklmnopqrstuvwxyz"
  const ALPHABET: string := UPPER + LOWER + "0123456789" + "+/"

  /** Bit `n` of the data, the most significant bit of each byte first; zero bits follow the last byte. */
  function Bit(data: seq<Byte>, n: nat): (b: nat)
    ensures b < 2
  {
    ByteOf(data, n / 8) / [128, 64, 32, 16, 8, 4, 2, 1][n % 8] % 2
  }

  /** The `k`th group of six bits as a number. */
  function Sextet(data: seq<Byte>, k: nat): (d: nat)
    ensures d < 64
  {
    Bit(data, 6 * k) * 32 + Bit(data, 6 * k + 1) * 16 + Bit(data, 6 * k + 2) * 8 + Bit(data, 6 * k + 3) * 4
    + Bit(data, 6 * k + 4) * 2 + Bit(data, 6 * k + 5)
  }

  lemma LetterIsAlphabet(d: nat)
    requires d < 64
    ensures |ALPHABET| == 64 && Letter(d) == ALPHABET[d]
  {
    assert d < 26 ==> ALPHABET[d] == UPPER[d];
    assert 26 <= d < 52 ==> ALPHABET[d] == LOWER[d - 26];
    assert 52 <= d < 62 ==> ALPHABET[d] == "0123456789"[d - 52];
  }

  lemma Halving(b: nat)
    requires b < 256
    ensures b / 4 == b / 2 / 2 && b / 8 == b / 4 / 2 && b / 16 == b / 8 / 2
    ensures b / 32 == b / 16 / 2 && b / 64 == b / 32 / 2 && b / 128 == b / 64 / 2 && b / 128 / 2 == 0
  {
  }

  /** Where a byte is cut, the bits above make up its quotient and the bits below its remainder. */
  lemma ByteBits(b: nat)
    requires b < 256
    ensures b / 128 % 2 * 32 + b / 64 % 2 * 16 + b / 32 % 2 * 8 + b / 16 % 2 * 4 + b / 8 % 2 * 2 + b / 4 % 2 == b / 4
    ensures b / 128 % 2 * 8 + b / 64 % 2 * 4 + b / 32 % 2 * 2 + b / 16 % 2 == b / 16
    ensures b / 128 % 2 * 2 + b / 64 % 2 == b / 64
    ensures b / 2 % 2 * 2 + b % 2 == b % 4
    ensures b / 8 % 2 * 8 + b / 4 % 2 * 4 + b / 2 % 2 * 2 + b % 2 == b % 16
    ensures b / 32 % 2 * 32 + b / 16 % 2 * 16 + b / 8 % 2 * 8 + b / 4 % 2 * 4 + b / 2 % 2 * 2 + b % 2 == b % 64
  {
    Halving(b);
    Split(b);
    Split(b / 2);
    Split(b / 4);
    Split(b / 8);
    Split(b / 16);
    Split(b / 32);
    Split(b / 64);
    Split(b / 128);
    Quotient(b, 4, b / 4, b / 2 % 2 * 2 + b % 2);
    Quotient(b, 16, b / 16, b / 8 % 2 * 8 + b / 4 % 2 * 4 + b / 2 % 2 * 2 + b % 2);
  }

  lemma Split(q: nat)
    ensures q == q / 2 * 2 + q % 2 && q % 2 < 2
  {
  }

  lemma BitsOf(data: seq<Byte>, i: nat)
    ensures var b := ByteOf(data, i);
            && Bit(data, 8 * i) == b / 128 % 2 && Bit(data, 8 * i + 1) == b / 64 % 2
            && Bit(data, 8 * i + 2) == b / 32 % 2 && Bit(data, 8 * i + 3) == b / 16 % 2
            && Bit(data, 8 * i + 4) == b / 8 % 2 && Bit(data, 8 * i + 5) == b / 4 % 2
            && Bit(data, 8 * i + 6) == b / 2 % 2 && Bit(data, 8 * i + 7) == b % 2
  {
    hide ByteOf;
    Quotient(8 * i + 1, 8, i, 1);
    Quotient(8 * i + 2, 8, i, 2);
    Quotient(8 * i + 3, 8, i, 3);
    Quotient(8 * i + 4, 8, i, 4);
    Quotient(8 * i + 5, 8, i, 5);
    Quotient(8 * i + 6, 8, i, 6);
    Quotient(8 * i + 7, 8, i, 7);
  }

  lemma GroupSextets(data: seq<Byte>)
    ensures var x, y, z := ByteOf(data, 0), ByteOf(data, 1), ByteOf(data, 2);
            && Sextet(data, 0) == x / 4 && Sextet(data, 1) == x % 4 * 16 + y / 16
            && Sextet(data, 2) == y % 16 * 4 + z / 64 && Sextet(data, 3) == z % 64
  {
    hide ByteOf, Bit;
    BitsOf(data, 0);
    BitsOf(data, 1);
    BitsOf(data, 2);
    ByteBits(ByteOf(data, 0));
    ByteBits(ByteOf(data, 1));
    ByteBits(ByteOf(data, 2));
  }

  lemma SextetShift(data: seq<Byte>, k: nat)
    requires |data| >= 3
    ensures Sextet(data, k + 4) == Sextet(data[3..], k)
  {
    BitShift(data, 6 * k);
    BitShift(data, 6 * k + 1);
    BitShift(data, 6 * k + 2);
    BitShift(data, 6 * k + 3);
    BitShift(data, 6 * k + 4);
    BitShift(data, 6 * k + 5);
  }

  lemma BitShift(data: seq<Byte>, n: nat)
    requires |data| >= 3
    ensures Bit(data, n + 24) == Bit(data[3..], n)
  {
    assert (n + 24) / 8 == n / 8 + 3 && (n + 24) % 8 == n % 8;
  }

  /** What one group encodes to, character by character. */
  lemma GroupFollowsTheStandard(data: seq<Byte>, k: nat)
    requires 1 <= |data| <= 3 && k < 4
    ensures EncodeGroup(data)[k] == if 6 * k < 8 * |data| then ALPHABET[Sextet(data, k)] else '='
  {
    hide Letter, Digit, Sextet;
    var x, y, z := ByteOf(data, 0), ByteOf(data, 1), ByteOf(data, 2);
    WordDigits(x, y, z);
    GroupSextets(data);
    LetterIsAlphabet(Sextet(data, k));
  }

  /** The encoder is the standard's: character `k` is the letter of the alphabet for the `k`th six bits of the
      data, as long as they hold a bit of it, and padding after that, to a multiple of four. */
  lemma {:induction false} EncodeFollowsTheStandard(data: seq<Byte>, k: nat)
    requires k < |Encode(data)|
    ensures Encode(data)[k] == if 6 * k < 8 * |data| then ALPHABET[Sextet(data, k)] else '='
    ensures |Encode(data)| == (|data| + 2) / 3 * 4 && |ALPHABET| == 64
    decreases |data|
  {
    hide EncodeGroup, Sextet;
    EncodeLength(data);
    LetterIsAlphabet(0);
    if |data| <= 3 {
      GroupFollowsTheStandard(data, k);
    } else if k < 4 {
      GroupFollowsTheStandard(data[..3], k);
      PrefixSextet(data, k);
    } else {
      EncodeFollowsTheStandard(data[3..], k - 4);
      SextetShift(data, k - 4);
    }
  }

  lemma PrefixSextet(data: seq<Byte>, k: nat)
    requires |data| > 3 && k < 4
    ensures Sextet(data[..3], k) == Sextet(data, k)
  {
    hide Sextet;
    GroupSextets(data);
    GroupSextets(data[..3]);
  }

  // ---------------------------------------------------------------------------------------
  // Archive chunks

  function Unbase64(input: string): Option<seq<Byte>>
  {
    if input == [] || |input| % 4 != 0 || |input| > 128 then None else Decode(input)
  }

  /** Chunks of 1 to 96 bytes travel unchanged, and nothing but their encodings is accepted. */
  lemma ChunksTravel(data: seq<Byte>)
    ensures Unbase64(Encode(data)) == Some(data) <==> 1 <= |data| <= CHUNK
  {
    hide Encode, Decode;
    EncodeLength(data);
    DecodeEncoded(data);
    assert |data| <= CHUNK <==> (|data| + 2) / 3 * 4 <= 128;
  }

  lemma ChunkCanonical(input: string)
    requires Unbase64(input).Some?
    ensures 1 <= |Unbase64(input).value| <= CHUNK && Encode(Unbase64(input).value) == input
  {
    DecodedIsCanonical(input);
    DecodedNonEmpty(input);
  }

  // ---------------------------------------------------------------------------------------
  // Wi-Fi text

  predicate Printable(data: seq<Byte>)
  {
    forall b :: b in data ==> 32 <= b <= 126
  }

  /** The decoder stops at the first byte that is not printable or does not fit with its terminator. */
  function WireDecode(text: string, capacity: nat): Option<seq<Byte>>
  {
    if |text| % 4 != 0 then None
    else
      var data :- Decode(text);
      if Printable(data) && (data == [] || |data| < capacity) then Some(data) else None
  }

  /** What the browser encodes the device decodes, exactly when it is printable and fits the buffer
      with its terminator (an empty text needs no room here). */
  lemma WireTravels(value: seq<Byte>, capacity: nat)
    ensures WireDecode(Encode(value), capacity) == Some(value)
       <==> (forall b :: b in value ==> ' ' as int <= b <= '~' as int) && (value == [] || |value| < capacity)
  {
    hide Encode, Decode;
    EncodedAligned(value);
    DecodeEncoded(value);
  }

  lemma WireInjective(a: string, b: string, capacity: nat)
    requires WireDecode(a, capacity).Some? && WireDecode(a, capacity) == WireDecode(b, capacity)
    ensures a == b
  {
    DecodedIsCanonical(a);
    DecodedIsCanonical(b);
  }

  // ---------------------------------------------------------------------------------------
  // The loops

  function Group(data: seq<Byte>, i: nat): seq<Byte>
    requires i < |data|
  {
    if i + 3 <= |data| then data[i..i + 3] else data[i..]
  }

  /** The encoding of everything from byte `i` on is its first group and the encoding of the rest. */
  lemma EncodeFrom(data: seq<Byte>, i: nat)
    requires i < |data|
    ensures Encode(data[i..]) == EncodeGroup(Group(data, i)) + Encode(if i + 3 <= |data| then data[i + 3..] else [])
    ensures |Group(data, i)| == if i + 3 <= |data| then 3 else |data| - i
  {
    hide EncodeGroup;
    var rest := data[i..];
    assert rest[..if |rest| <= 3 then |rest| else 3] == Group(data, i);
    if |rest| > 3 {
      assert rest[3..] == data[i + 3..];
    } else {
      assert EncodeGroup(rest) + [] == EncodeGroup(rest);
      assert i + 3 <= |data| ==> data[i + 3..] == [];
      assert Group(data, i) == rest;
    }
  }

  /** The browser's encoder. */
  method BrowserEncode(value: seq<Byte>) returns (text: string)
    ensures text == Encode(value)
  {
    hide EncodeGroup, Encode;
    text := [];
    var i := 0;
    while i < |value|
      invariant text + Encode(if i <= |value| then value[i..] else []) == Encode(value)
    {
      EncodeFrom(value, i);
      text := text + EncodeGroup(Group(value, i));
      i := i + 3;
    }
    EncodeNothing();
    assert i <= |value| ==> value[i..] == [];
  }

  lemma EncodeNothing()
    ensures Encode([]) == []
  {
  }

  /** The device's encoder fills a buffer with room for the text and its terminator. */
  method EncodeInto(data: seq<Byte>, out: array<char>) returns (length: nat)
    requires (|data| + 2) / 3 * 4 < out.Length
    modifies out
    ensures length < out.Length && out[..length] == Encode(data) && out[length] == 0 as char
  {
    hide EncodeGroup, Encode;
    EncodeLength(data);
    EncodeNothing();
    length := 0;
    var i := 0;
    assert data[0..] == data && out[..0] + Encode(data) == Encode(data);
    while i < |data|
      invariant length + |Encode(if i <= |data| then data[i..] else [])| == |Encode(data)| < out.Length
      invariant out[..length] + Encode(if i <= |data| then data[i..] else []) == Encode(data)
    {
      EncodeFrom(data, i);
      var group := EncodeGroup(Group(data, i));
      ghost var before := out[..length];
      forall k | 0 <= k < 4 { out[length + k] := group[k]; }
      assert out[..length] == before;
      assert out[..length + 4] == before + group;
      length := length + 4;
      i := i + 3;
    }
    assert i <= |data| ==> data[i..] == [];
    assert out[..length] + [] == out[..length];
    out[length] := 0 as char;
  }

  /** Decoding group by group, with a per-byte test; the first refused byte or group ends it. */
  method DecodeChecked(text: string, capacity: nat, printableOnly: bool) returns (ok: bool, data: seq<Byte>)
    requires |text| % 4 == 0
    ensures ok <==>
              Decode(text).Some? && |Decode(text).value| <= capacity
              && (printableOnly ==> Printable(Decode(text).value))
    ensures ok ==> data == Decode(text).value
  {
    hide DecodeGroup, Decode;
    data := [];
    var i := 0;
    while i < |text|
      invariant i <= |text| && i % 4 == 0
      invariant |data| <= capacity && (printableOnly ==> Printable(data))
      invariant Decode(text).Some? <==> Decode(text[i..]).Some?
      invariant Decode(text).Some? ==> Decode(text).value == data + Decode(text[i..]).value
    {
      DecodeFrom(text, i);
      var group := DecodeGroup(text[i..i + 4], i + 4 == |text|);
      if group.None? { return false, data; }
      var j := 0;
      ghost var before := data;
      while j < |group.value|
        invariant j <= |group.value| && data == before + group.value[..j]
        invariant |data| <= capacity && (printableOnly ==> Printable(data))
      {
        if |data| >= capacity || (printableOnly && !(32 <= group.value[j] <= 126)) {
          if Decode(text).Some? {
            assert Decode(text).value[|before| + j] == group.value[j] && group.value[j] in Decode(text).value;
          }
          return false, data;
        }
        data := data + [group.value[j]];
        j := j + 1;
      }
      assert group.value[..j] == group.value;
      i := i + 4;
    }
    assert text[i..] == [];
    DecodeNothing();
    return true, data;
  }

  lemma DecodeNothing()
    ensures Decode([]) == Some([])
  {
  }

  lemma DecodeFrom(text: string, i: nat)
    requires i + 4 <= |text|
    ensures Decode(text[i..]).Some? <==>
            DecodeGroup(text[i..i + 4], i + 4 == |text|).Some? && Decode(text[i + 4..]).Some?
    ensures Decode(text[i..]).Some? ==>
              Decode(text[i..]).value == DecodeGroup(text[i..i + 4], i + 4 == |text|).value
                  + Decode(text[i + 4..]).value
  {
    hide DecodeGroup;
    assert text[i..][..4] == text[i..i + 4] && text[i..][4..] == text[i + 4..];
  }

  /** `unbase64` for archive chunks. */
  method UnbaseChunk(input: string) returns (ok: bool, data: seq<Byte>)
    ensures ok == Unbase64(input).Some? && (ok ==> data == Unbase64(input).value)
  {
    hide Decode;
    if |input| == 0 || |input| % 4 != 0 || |input| > 128 { return false, []; }
    ok, data := DecodeChecked(input, CHUNK, false);
  }

  /** `wifi_wire::decode`: the text and its terminator must fit. */
  method DecodeWire(text: string, capacity: nat) returns (ok: bool, data: seq<Byte>)
    requires 0 < capacity
    ensures ok == WireDecode(text, capacity).Some? && (ok ==> data == WireDecode(text, capacity).value)
  {
    hide Decode, Printable;
    if |text| % 4 != 0 { return false, []; }
    ok, data := DecodeChecked(text, capacity - 1, true);
    NothingIsPrintable();
  }

  lemma NothingIsPrintable()
    ensures Printable([])
  {
  }
}
