/**
 * The base64 encoding of section 4 of RFC 4648, which `btoa` applies to the
 * audio bytes: each 3-byte group becomes 4 symbols of the 64-character
 * alphabet, and a final group of 1 or 2 bytes is padded with `=`.
 */
module Base64 {
  import opened Wrappers

  type Sextet = v: bv8 | v < 64

  /** The alphabet of Table 1 in RFC 4648: A-Z, a-z, 0-9, '+', '/'. */
  function Symbol(v: Sextet): (c: char)
    ensures c != '=' && IsBase64Char(c)
  {
    var n := v as int;
    if n < 26 then ('A' as int + n) as char
    else if n < 52 then ('a' as int + (n - 26)) as char
    else if n < 62 then ('0' as int + (n - 52)) as char
    else if n == 62 then '+'
    else '/'
  }

  /** The value of an alphabet symbol; `None` for every other character. */
  function ValueOf(c: char): Option<Sextet> {
    if 'A' <= c <= 'Z' then Some((c as int - 'A' as int) as bv8)
    else if 'a' <= c <= 'z' then Some((c as int - 'a' as int + 26) as bv8)
    else if '0' <= c <= '9' then Some((c as int - '0' as int + 52) as bv8)
    else if c == '+' then Some(62)
    else if c == '/' then Some(63)
    else None
  }

  /** `ValueOf` inverts `Symbol`. */
  lemma ValueOfSymbol(v: Sextet)
    ensures ValueOf(Symbol(v)) == Some(v)
  {
    if v < 26 {
      ValueOfLetter(v);
    } else if v < 52 {
      ValueOfSmallLetter(v);
    } else if v < 62 {
      ValueOfDigit(v);
    }
  }

  lemma ValueOfLetter(v: Sextet)
    requires v < 26
    ensures ValueOf(Symbol(v)) == Some(v)
  {
    assert Symbol(v) == ('A' as int + v as int) as char;
  }

  lemma ValueOfSmallLetter(v: Sextet)
    requires 26 <= v < 52
    ensures ValueOf(Symbol(v)) == Some(v)
  {
    assert Symbol(v) == ('a' as int + (v as int - 26)) as char;
  }

  lemma ValueOfDigit(v: Sextet)
    requires 52 <= v < 62
    ensures ValueOf(Symbol(v)) == Some(v)
  {
    assert Symbol(v) == ('0' as int + (v as int - 52)) as char;
  }

  function EncodeGroup(b0: bv8, b1: bv8, b2: bv8): (r: string)
    ensures |r| == 4
  {
    [Symbol(b0 >> 2), Symbol(((b0 & 3) << 4) | (b1 >> 4)), Symbol(((b1 & 15) << 2) | (b2 >> 6)), Symbol(b2 & 63)]
  }

  /** The padded final group for two remaining bytes. */
  function EncodeTwo(b0: bv8, b1: bv8): (r: string)
    ensures |r| == 4
  {
    [Symbol(b0 >> 2), Symbol(((b0 & 3) << 4) | (b1 >> 4)), Symbol((b1 & 15) << 2), '=']
  }

  /** The padded final group for one remaining byte. */
  function EncodeOne(b0: bv8): (r: string)
    ensures |r| == 4
  {
    [Symbol(b0 >> 2), Symbol((b0 & 3) << 4), '=', '=']
  }

  /** A character allowed in encoded text: an alphabet symbol or the pad `=`. */
  predicate IsBase64Char(c: char) {
    'A' <= c <= 'Z' || 'a' <= c <= 'z' || '0' <= c <= '9' || c == '+' || c == '/' || c == '='
  }

  /** `btoa(String.fromCharCode(...bytes))`. */
  function Encode(bytes: seq<bv8>): (r: string)
    ensures bytes != [] ==> |r| >= 4
    decreases |bytes|
  {
    if |bytes| == 0 then ""
    else if |bytes| == 1 then EncodeOne(bytes[0])
    else if |bytes| == 2 then EncodeTwo(bytes[0], bytes[1])
    else EncodeGroup(bytes[0], bytes[1], bytes[2]) + Encode(bytes[3..])
  }

  /** The test vectors of section 10 of RFC 4648: "f", "fo", ..., "foobar". */
  lemma EncodeTestVectors()
    ensures Encode([]) == ""
    ensures Encode([102]) == "Zg=="
    ensures Encode([102, 111]) == "Zm8="
    ensures Encode([102, 111, 111]) == "Zm9v"
    ensures Encode([102, 111, 111, 98]) == "Zm9vYg=="
    ensures Encode([102, 111, 111, 98, 97]) == "Zm9vYmE="
    ensures Encode([102, 111, 111, 98, 97, 114]) == "Zm9vYmFy"
  {
  }

  /** Every started group of three bytes takes four characters. */
  lemma {:induction false} EncodedLength(bytes: seq<bv8>)
    ensures |Encode(bytes)| == 4 * ((|bytes| + 2) / 3)
    decreases |bytes|
  {
    if |bytes| >= 3 {
      EncodedLength(bytes[3..]);
    }
  }

  function DecodeGroup(s0: Sextet, s1: Sextet, s2: Sextet, s3: Sextet): seq<bv8> {
    [(s0 << 2) | (s1 >> 4), ((s1 & 15) << 4) | (s2 >> 2), ((s2 & 3) << 6) | s3]
  }

  /** Decodes one unpadded group of four symbols. */
  function DecodeFull(c0: char, c1: char, c2: char, c3: char): Option<seq<bv8>> {
    match (ValueOf(c0), ValueOf(c1), ValueOf(c2), ValueOf(c3))
    case (Some(s0), Some(s1), Some(s2), Some(s3)) => Some(DecodeGroup(s0, s1, s2, s3))
    case _ => None
  }

  /** Decodes the last group, which may end in one or two `=`. */
  function DecodeLast(c0: char, c1: char, c2: char, c3: char): Option<seq<bv8>> {
    if c2 == '=' && c3 == '=' then
      match (ValueOf(c0), ValueOf(c1))
      case (Some(s0), Some(s1)) => Some(DecodeGroup(s0, s1, 0, 0)[..1])
      case _ => None
    else if c3 == '=' then
      match (ValueOf(c0), ValueOf(c1), ValueOf(c2))
      case (Some(s0), Some(s1), Some(s2)) => Some(DecodeGroup(s0, s1, s2, 0)[..2])
      case _ => None
    else DecodeFull(c0, c1, c2, c3)
  }

  /** The inverse of `Encode`: `None` for text that is not padded base64. */
  function Decode(s: string): Option<seq<bv8>>
    decreases |s|
  {
    if |s| == 0 then Some([])
    else if |s| < 4 then None
    else if |s| == 4 then DecodeLast(s[0], s[1], s[2], s[3])
    else
      match DecodeFull(s[0], s[1], s[2], s[3])
      case None => None
      case Some(group) =>
        match Decode(s[4..])
        case None => None
        case Some(rest) => Some(group + rest)
  }

  lemma GroupRoundTrip(b0: bv8, b1: bv8, b2: bv8)
    ensures DecodeFull(EncodeGroup(b0, b1, b2)[0], EncodeGroup(b0, b1, b2)[1],
                       EncodeGroup(b0, b1, b2)[2], EncodeGroup(b0, b1, b2)[3]) == Some([b0, b1, b2])
  {
    ValueOfSymbol(b0 >> 2);
    ValueOfSymbol(((b0 & 3) << 4) | (b1 >> 4));
    ValueOfSymbol(((b1 & 15) << 2) | (b2 >> 6));
    ValueOfSymbol(b2 & 63);
    assert DecodeGroup(b0 >> 2, ((b0 & 3) << 4) | (b1 >> 4), ((b1 & 15) << 2) | (b2 >> 6), b2 & 63) == [b0, b1, b2];
  }

  lemma OneRoundTrip(b0: bv8)
    ensures Decode(EncodeOne(b0)) == Some([b0])
  {
    ValueOfSymbol(b0 >> 2);
    ValueOfSymbol((b0 & 3) << 4);
    assert DecodeGroup(b0 >> 2, (b0 & 3) << 4, 0, 0)[..1] == [b0];
    var e := EncodeOne(b0);
    assert DecodeLast(e[0], e[1], e[2], e[3]) == Some([b0]);
  }

  lemma TwoRoundTrip(b0: bv8, b1: bv8)
    ensures Decode(EncodeTwo(b0, b1)) == Some([b0, b1])
  {
    ValueOfSymbol(b0 >> 2);
    ValueOfSymbol(((b0 & 3) << 4) | (b1 >> 4));
    ValueOfSymbol((b1 & 15) << 2);
    assert DecodeGroup(b0 >> 2, ((b0 & 3) << 4) | (b1 >> 4), (b1 & 15) << 2, 0)[..2] == [b0, b1];
    var e := EncodeTwo(b0, b1);
    assert DecodeLast(e[0], e[1], e[2], e[3]) == Some([b0, b1]);
  }

  /** A full group in front of more encoded text decodes to its bytes in front of theirs. */
  lemma DecodeAppend(g: string, rest: string, x: seq<bv8>, y: seq<bv8>)
    requires |g| == 4 && rest != []
    requires DecodeFull(g[0], g[1], g[2], g[3]) == Some(x) && Decode(rest) == Some(y)
    ensures Decode(g + rest) == Some(x + y)
  {
    var s := g + rest;
    assert s[0] == g[0] && s[1] == g[1] && s[2] == g[2] && s[3] == g[3];
    assert s[4..] == rest;
  }

  /** Decoding recovers exactly the bytes that were encoded. */
  lemma {:induction false} DecodeEncode(bytes: seq<bv8>)
    ensures Decode(Encode(bytes)) == Some(bytes)
    decreases |bytes|
  {
    if |bytes| == 0 {
    } else if |bytes| == 1 {
      OneRoundTrip(bytes[0]);
      assert bytes == [bytes[0]];
    } else if |bytes| == 2 {
      TwoRoundTrip(bytes[0], bytes[1]);
      assert bytes == [bytes[0], bytes[1]];
    } else if |bytes| == 3 {
      ThreeRoundTrip(bytes);
    } else {
      var head := [bytes[0], bytes[1], bytes[2]];
      assert head + bytes[3..] == bytes;
      DecodeEncode(bytes[3..]);
      GroupThenRest(bytes[0], bytes[1], bytes[2], bytes[3..]);
    }
  }

  /** The inductive step: a full group in front of bytes whose encoding round-trips. */
  lemma GroupThenRest(b0: bv8, b1: bv8, b2: bv8, tail: seq<bv8>)
    requires tail != [] && Decode(Encode(tail)) == Some(tail)
    ensures Decode(EncodeGroup(b0, b1, b2) + Encode(tail)) == Some([b0, b1, b2] + tail)
  {
    GroupRoundTrip(b0, b1, b2);
    DecodeAppend(EncodeGroup(b0, b1, b2), Encode(tail), [b0, b1, b2], tail);
  }

  lemma ThreeRoundTrip(bytes: seq<bv8>)
    requires |bytes| == 3
    ensures Decode(Encode(bytes)) == Some(bytes)
  {
    var g := EncodeGroup(bytes[0], bytes[1], bytes[2]);
    GroupRoundTrip(bytes[0], bytes[1], bytes[2]);
    assert Encode(bytes) == g by {
      assert bytes[3..] == [];
      assert g + "" == g;
    }
    assert DecodeLast(g[0], g[1], g[2], g[3]) == Some([bytes[0], bytes[1], bytes[2]]);
    assert bytes == [bytes[0], bytes[1], bytes[2]];
  }

  /** The encoding holds alphabet symbols and padding only. */
  lemma {:induction false} EncodeUsesAlphabet(bytes: seq<bv8>)
    ensures forall i :: 0 <= i < |Encode(bytes)| ==> IsBase64Char(Encode(bytes)[i])
    decreases |bytes|
  {
    if |bytes| >= 3 {
      EncodeUsesAlphabet(bytes[3..]);
      var g := EncodeGroup(bytes[0], bytes[1], bytes[2]);
      var rest := Encode(bytes[3..]);
      forall i | 0 <= i < |g + rest| ensures IsBase64Char((g + rest)[i]) {
        if i >= 4 {
          assert (g + rest)[i] == rest[i - 4];
        }
      }
    }
  }

  /** Different byte strings never share an encoding. */
  lemma EncodeInjective(a: seq<bv8>, b: seq<bv8>)
    requires Encode(a) == Encode(b)
    ensures a == b
  {
    DecodeEncode(a);
    DecodeEncode(b);
  }
}
