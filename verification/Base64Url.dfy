/** The unpadded base64url codec of receipt signatures and public keys
    (section 5 of RFC 4648): the writer strips the padding, the reader puts it
    back before decoding, leniently: it skips characters outside the alphabet. */
module Base64Url {
  import opened Prelude

  type Byte = x: int | 0 <= x < 256
  type Sextet = x: int | 0 <= x < 64

  /** An alphabet of 64 characters, read both ways; the reader also takes the two
      characters of the standard alphabet that this one replaces. */
  datatype Alphabet = Alphabet(charOf: Sextet -> char, valueOf: char -> Option<Sextet>, readOf: char -> Option<Sextet>)

  function CharOf(v: Sextet): char
  {
    if v < 26 then 'A' + v as char
    else if v < 52 then 'a' + (v - 26) as char
    else if v < 62 then '0' + (v - 52) as char
    else if v == 62 then '-' else '_'
  }

  function ValueOf(c: char): Option<Sextet>
  {
    if 'A' <= c <= 'Z' then Some((c - 'A') as int)
    else if 'a' <= c <= 'z' then Some((c - 'a') as int + 26)
    else if '0' <= c <= '9' then Some((c - '0') as int + 52)
    else if c == '-' then Some(62)
    else if c == '_' then Some(63)
    else None
  }

  function ReadOf(c: char): Option<Sextet>
  {
    if c == '+' then Some(62) else if c == '/' then Some(63) else ValueOf(c)
  }

  function UrlAlphabet(): Alphabet
  {
    Alphabet(CharOf, ValueOf, ReadOf)
  }

  // Every value reads back, and the pad has no value.
  ghost predicate Faithful(abc: Alphabet)
  {
    && abc.valueOf('=') == None && abc.readOf('=') == None
    && forall v: Sextet :: abc.valueOf(abc.charOf(v)) == Some(v) && abc.readOf(abc.charOf(v)) == Some(v)
  }

  lemma CharRoundTrip(v: Sextet)
    ensures ValueOf(CharOf(v)) == Some(v) && ReadOf(CharOf(v)) == Some(v)
  {}

  lemma UrlAlphabetIsFaithful()
    ensures Faithful(UrlAlphabet())
  {
    forall v: Sextet ensures UrlAlphabet().valueOf(CharOf(v)) == Some(v) && UrlAlphabet().readOf(CharOf(v)) == Some(v) {
      CharRoundTrip(v);
    }
  }

  function Sextet0(x: Byte): Sextet { x / 4 }

  function Sextet1(x: Byte, y: Byte): Sextet { x % 4 * 16 + y / 16 }

  function Sextet2(y: Byte, z: Byte): Sextet { y % 16 * 4 + z / 64 }

  function Sextet3(z: Byte): Sextet { z % 64 }

  // One to three bytes as a group of four characters, padded with '='.
  function EncodeGroup(abc: Alphabet, b: seq<Byte>): (g: string)
    requires 1 <= |b| <= 3
    ensures |g| == 4
  {
    if |b| == 1 then
      [abc.charOf(Sextet0(b[0])), abc.charOf(Sextet1(b[0], 0)), '=', '=']
    else if |b| == 2 then
      [abc.charOf(Sextet0(b[0])), abc.charOf(Sextet1(b[0], b[1])), abc.charOf(Sextet2(b[1], 0)), '=']
    else
      [abc.charOf(Sextet0(b[0])), abc.charOf(Sextet1(b[0], b[1])), abc.charOf(Sextet2(b[1], b[2])),
       abc.charOf(Sextet3(b[2]))]
  }

  function Encode(abc: Alphabet, b: seq<Byte>): string
  {
    if |b| == 0 then ""
    else if |b| <= 3 then EncodeGroup(abc, b)
    else EncodeGroup(abc, b[..3]) + Encode(abc, b[3..])
  }

  function FirstByte(a: Sextet, b: Sextet): Byte { a * 4 + b / 16 }

  function SecondByte(b: Sextet, c: Sextet): Byte { b % 16 * 16 + c / 4 }

  function ThirdByte(c: Sextet, d: Sextet): Byte { c % 4 * 64 + d }

  // The bytes that two or three values are the start of.
  function HeldBytes(held: seq<Sextet>): seq<Byte>
    requires 2 <= |held| <= 3
  {
    [FirstByte(held[0], held[1])] + if |held| == 3 then [SecondByte(held[1], held[2])] else []
  }

  function Behind(bytes: seq<Byte>, tail: Option<seq<Byte>>): Option<seq<Byte>>
  {
    if tail.Some? then Some(bytes + tail.value) else None
  }

  /** binascii.a2b_base64, not strict. `held` are the values of the group at hand
      and `pads` the pads seen since the last of them: a group that pads complete
      ends the text, other pads and characters without a value are skipped, and
      a text that ends within a group is refused. */
  function Decode(abc: Alphabet, text: string, held: seq<Sextet>, pads: nat): Option<seq<Byte>>
    requires |held| <= 3
  {
    if |text| == 0 then if |held| == 0 then Some([]) else None
    else if text[0] == '=' then
      if |held| < 2 then Decode(abc, text[1..], held, pads)
      else if |held| + pads + 1 >= 4 then Some(HeldBytes(held))
      else Decode(abc, text[1..], held, pads + 1)
    else
      match abc.readOf(text[0])
      case None => Decode(abc, text[1..], held, pads)
      case Some(v) =>
        if |held| < 3 then Decode(abc, text[1..], held + [v], 0)
        else Behind(HeldBytes(held) + [ThirdByte(held[2], v)], Decode(abc, text[1..], [], 0))
  }

  function StripPadding(s: string): string
  {
    if |s| > 0 && s[|s| - 1] == '=' then StripPadding(s[..|s| - 1]) else s
  }

  function Padding(n: nat): string
    ensures |Padding(n)| == n
  {
    if n == 0 then "" else Padding(n - 1) + "="
  }

  // b64url_encode
  function B64UrlEncode(b: seq<Byte>): string
  {
    StripPadding(Encode(UrlAlphabet(), b))
  }

  predicate Ascii(s: string)
  {
    forall i | 0 <= i < |s| :: s[i] as int < 128
  }

  // _b64url_decode: the empty text and one beyond ASCII are refused, other texts
  // are padded to a multiple of four first.
  function B64UrlDecode(s: string): Option<seq<Byte>>
  {
    if |s| == 0 || !Ascii(s) then None else Decode(UrlAlphabet(), s + Padding(MissingPadding(|s|)), [], 0)
  }

  function MissingPadding(n: nat): nat { (4 - n % 4) % 4 }

  lemma BytesRegrouped(x: Byte, y: Byte, z: Byte)
    ensures FirstByte(Sextet0(x), Sextet1(x, y)) == x
    ensures SecondByte(Sextet1(x, y), Sextet2(y, z)) == y
    ensures ThirdByte(Sextet2(y, z), Sextet3(z)) == z
  {}

  // Reading one character with a value.
  lemma DecodeValue(abc: Alphabet, v: Sextet, rest: string, held: seq<Sextet>, pads: nat)
    requires Faithful(abc) && |held| <= 3
    ensures Decode(abc, [abc.charOf(v)] + rest, held, pads) ==
            if |held| < 3 then Decode(abc, rest, held + [v], 0)
            else Behind(HeldBytes(held) + [ThirdByte(held[2], v)], Decode(abc, rest, [], 0))
  {
    assert ([abc.charOf(v)] + rest)[1..] == rest;
  }

  lemma DecodePad(abc: Alphabet, rest: string, held: seq<Sextet>, pads: nat)
    requires 2 <= |held| <= 3
    ensures Decode(abc, "=" + rest, held, pads) ==
            if |held| + pads + 1 >= 4 then Some(HeldBytes(held)) else Decode(abc, rest, held, pads + 1)
  {
    assert ("=" + rest)[1..] == rest;
  }

  // Reading two values and any rest.
  lemma DecodeTwo(abc: Alphabet, a: Sextet, b: Sextet, rest: string)
    requires Faithful(abc)
    ensures Decode(abc, [abc.charOf(a), abc.charOf(b)] + rest, [], 0) == Decode(abc, rest, [a, b], 0)
  {
    assert [abc.charOf(a), abc.charOf(b)] + rest == [abc.charOf(a)] + ([abc.charOf(b)] + rest);
    DecodeValue(abc, a, [abc.charOf(b)] + rest, [], 0);
    assert [] + [a] == [a] && [a] + [b] == [a, b];
    DecodeValue(abc, b, rest, [a], 0);
  }

  // Reading a whole group and any rest.
  lemma DecodeFour(abc: Alphabet, a: Sextet, b: Sextet, c: Sextet, d: Sextet, rest: string)
    requires Faithful(abc)
    ensures Decode(abc, [abc.charOf(a), abc.charOf(b), abc.charOf(c), abc.charOf(d)] + rest, [], 0) ==
            Behind([FirstByte(a, b), SecondByte(b, c), ThirdByte(c, d)], Decode(abc, rest, [], 0))
  {
    var tail := [abc.charOf(d)] + rest;
    assert [abc.charOf(a), abc.charOf(b), abc.charOf(c), abc.charOf(d)] + rest ==
           [abc.charOf(a), abc.charOf(b)] + ([abc.charOf(c)] + tail);
    DecodeTwo(abc, a, b, [abc.charOf(c)] + tail);
    assert [a, b] + [c] == [a, b, c];
    DecodeValue(abc, c, tail, [a, b], 0);
    DecodeValue(abc, d, rest, [a, b, c], 0);
    assert HeldBytes([a, b, c]) + [ThirdByte(c, d)] == [FirstByte(a, b), SecondByte(b, c), ThirdByte(c, d)];
  }

  // A whole group of three bytes, and any rest.
  lemma WholeGroup(abc: Alphabet, b: seq<Byte>, rest: string)
    requires Faithful(abc) && |b| == 3
    ensures Decode(abc, EncodeGroup(abc, b) + rest, [], 0) == Behind(b, Decode(abc, rest, [], 0))
  {
    BytesRegrouped(b[0], b[1], b[2]);
    DecodeFour(abc, Sextet0(b[0]), Sextet1(b[0], b[1]), Sextet2(b[1], b[2]), Sextet3(b[2]), rest);
    assert b == [b[0], b[1], b[2]];
  }

  // Two values closed by two pads, and three closed by one.
  lemma DecodeShort(abc: Alphabet, a: Sextet, b: Sextet, bytes: seq<Byte>)
    requires Faithful(abc) && |bytes| == 1 && bytes[0] == FirstByte(a, b)
    ensures Decode(abc, [abc.charOf(a), abc.charOf(b), '=', '='], [], 0) == Some(bytes)
  {
    assert [abc.charOf(a), abc.charOf(b), '=', '='] == [abc.charOf(a), abc.charOf(b)] + ("=" + ("=" + ""));
    DecodeTwo(abc, a, b, "=" + ("=" + ""));
    DecodePad(abc, "=" + "", [a, b], 0);
    DecodePad(abc, "", [a, b], 1);
    assert HeldBytes([a, b]) == bytes;
  }

  lemma DecodeLong(abc: Alphabet, a: Sextet, b: Sextet, c: Sextet, bytes: seq<Byte>)
    requires Faithful(abc) && |bytes| == 2 && bytes[0] == FirstByte(a, b) && bytes[1] == SecondByte(b, c)
    ensures Decode(abc, [abc.charOf(a), abc.charOf(b), abc.charOf(c), '='], [], 0) == Some(bytes)
  {
    assert [abc.charOf(a), abc.charOf(b), abc.charOf(c), '='] ==
           [abc.charOf(a), abc.charOf(b)] + ([abc.charOf(c)] + ("=" + ""));
    DecodeTwo(abc, a, b, [abc.charOf(c)] + ("=" + ""));
    assert [a, b] + [c] == [a, b, c];
    DecodeValue(abc, c, "=" + "", [a, b], 0);
    DecodePad(abc, "", [a, b, c], 0);
    assert HeldBytes([a, b, c]) == bytes;
  }

  // A last group of one or two bytes.
  lemma LastGroup(abc: Alphabet, b: seq<Byte>)
    requires Faithful(abc) && 1 <= |b| <= 2
    ensures Decode(abc, EncodeGroup(abc, b), [], 0) == Some(b)
  {
    var y := if |b| > 1 then b[1] else 0;
    BytesRegrouped(b[0], y, 0);
    if |b| == 1 {
      DecodeShort(abc, Sextet0(b[0]), Sextet1(b[0], y), b);
    } else {
      DecodeLong(abc, Sextet0(b[0]), Sextet1(b[0], y), Sextet2(y, 0), b);
    }
  }

  lemma {:induction false} PaddedRoundTrip(abc: Alphabet, b: seq<Byte>)
    requires Faithful(abc)
    ensures Decode(abc, Encode(abc, b), [], 0) == Some(b)
  {
    if |b| > 3 {
      WholeGroup(abc, b[..3], Encode(abc, b[3..]));
      PaddedRoundTrip(abc, b[3..]);
      assert b == b[..3] + b[3..];
    } else if |b| == 3 {
      WholeGroup(abc, b, "");
      assert EncodeGroup(abc, b) + "" == EncodeGroup(abc, b) && b + [] == b;
    } else if |b| > 0 {
      LastGroup(abc, b);
    }
  }

  /** A character that is neither a pad nor in the alphabet changes nothing,
      wherever it stands. */
  lemma {:induction false} StrayIsSkipped(
    abc: Alphabet, before: string, stray: char, after: string, held: seq<Sextet>, pads: nat)
    requires stray != '=' && abc.readOf(stray) == None && |held| <= 3
    ensures Decode(abc, before + [stray] + after, held, pads) == Decode(abc, before + after, held, pads)
    decreases |before|
  {
    if |before| == 0 {
      assert (before + [stray] + after)[1..] == after == before + after;
    } else {
      var head, rest := before[0], before[1..];
      assert (before + [stray] + after)[1..] == rest + [stray] + after && (before + after)[1..] == rest + after;
      StrayIsSkipped(abc, rest, stray, after, held, pads);
      StrayIsSkipped(abc, rest, stray, after, held, pads + 1);
      if abc.readOf(head).Some? {
        var value := abc.readOf(head).value;
        if |held| < 3 {
          StrayIsSkipped(abc, rest, stray, after, held + [value], 0);
        } else {
          StrayIsSkipped(abc, rest, stray, after, [], 0);
        }
      }
    }
  }

  lemma {:induction false} StripPaddingAppend(x: string, n: nat)
    requires '=' !in x
    ensures StripPadding(x + Padding(n)) == x
  {
    if n == 0 {
      assert x + Padding(0) == x;
    } else {
      StripPaddingAppend(x, n - 1);
      var s := x + Padding(n);
      assert s[..|s| - 1] == x + Padding(n - 1);
    }
  }

  function PadCount(b: seq<Byte>): nat { (3 - |b| % 3) % 3 }

  lemma {:induction false} EncodingLength(abc: Alphabet, b: seq<Byte>)
    ensures |Encode(abc, b)| == (|b| + 2) / 3 * 4
  {
    if |b| > 3 {
      EncodingLength(abc, b[3..]);
    }
  }

  predicate Shaped(abc: Alphabet, text: string, pads: nat)
  {
    && pads <= |text|
    && forall i | 0 <= i < |text| :: if i < |text| - pads then abc.valueOf(text[i]).Some? else text[i] == '='
  }

  lemma GroupShape(abc: Alphabet, b: seq<Byte>)
    requires Faithful(abc) && 1 <= |b| <= 3
    ensures Shaped(abc, EncodeGroup(abc, b), 3 - |b|)
  {}

  lemma ShapedAppend(abc: Alphabet, head: string, tail: string, pads: nat)
    requires Shaped(abc, head, 0) && Shaped(abc, tail, pads)
    ensures Shaped(abc, head + tail, pads)
  {}

  /** An encoding is whole groups: characters with a value, then one '=' for
      each byte missing from the last group. */
  lemma {:induction false} EncodingShape(abc: Alphabet, b: seq<Byte>)
    requires Faithful(abc)
    ensures Shaped(abc, Encode(abc, b), PadCount(b))
  {
    if |b| > 3 {
      EncodingShape(abc, b[3..]);
      GroupShape(abc, b[..3]);
      ShapedAppend(abc, EncodeGroup(abc, b[..3]), Encode(abc, b[3..]), PadCount(b));
    } else if |b| > 0 {
      GroupShape(abc, b);
    }
  }

  lemma {:induction false} PaddingIs(s: string)
    requires forall i :: 0 <= i < |s| ==> s[i] == '='
    ensures s == Padding(|s|)
  {
    if |s| > 0 {
      PaddingIs(s[..|s| - 1]);
      assert s == s[..|s| - 1] + "=";
    }
  }

  /** What is written holds no '=', and stripping loses padding only. */
  lemma StrippedEncoding(b: seq<Byte>)
    ensures Encode(UrlAlphabet(), b) == B64UrlEncode(b) + Padding(PadCount(b))
    ensures |B64UrlEncode(b)| == (|b| + 2) / 3 * 4 - PadCount(b)
    ensures forall i :: 0 <= i < |B64UrlEncode(b)| ==> ValueOf(B64UrlEncode(b)[i]).Some?
  {
    UrlAlphabetIsFaithful();
    EncodingLength(UrlAlphabet(), b);
    EncodingShape(UrlAlphabet(), b);
    var padded := Encode(UrlAlphabet(), b);
    var n := |padded| - PadCount(b);
    var body, pads := padded[..n], padded[n..];
    PaddingIs(pads);
    assert UrlAlphabet().valueOf('=') == None;
    StripPaddingAppend(body, |pads|);
    assert padded == body + pads;
  }

  lemma PaddingRestored(n: nat, pads: nat, kept: int)
    requires n > 0 && pads == (3 - n % 3) % 3 && kept == (n + 2) / 3 * 4 - pads
    ensures kept > 0 && MissingPadding(kept) == pads
  {
    var q := (n + 2) / 3;
    assert (q * 4 - 1) % 4 == 3 && (q * 4 - 2) % 4 == 2 && q * 4 % 4 == 0;
  }

  lemma ValuedIsAscii(s: string)
    requires forall i :: 0 <= i < |s| ==> ValueOf(s[i]).Some?
    ensures Ascii(s)
  {
    forall i | 0 <= i < |s| ensures s[i] as int < 128 {
      assert ValueOf(s[i]).Some?;
    }
  }

  /** Reading what the writer wrote gives the bytes back, except that the empty
      byte string is written as the empty text, which the reader refuses. */
  lemma B64UrlRoundTrip(b: seq<Byte>)
    ensures B64UrlDecode(B64UrlEncode(b)) == if |b| > 0 then Some(b) else None
  {
    var text := B64UrlEncode(b);
    StrippedEncoding(b);
    if |b| > 0 {
      PaddingRestored(|b|, PadCount(b), |text|);
      UrlAlphabetIsFaithful();
      PaddedRoundTrip(UrlAlphabet(), b);
      ValuedIsAscii(text);
      assert text + Padding(MissingPadding(|text|)) == Encode(UrlAlphabet(), b);
    }
  }

  lemma StripsPads(text: string)
    requires |text| > 0 && text[|text| - 1] != '='
    ensures StripPadding(text) == text && StripPadding(text + "=") == text && StripPadding(text + "==") == text
  {
    assert (text + "=")[..|text|] == text && (text + "==")[..|text| + 1] == text + "=";
  }

  lemma WholeVector()
    ensures B64UrlEncode([102, 111, 111]) == "Zm9v"
  {
    assert Encode(UrlAlphabet(), [102, 111, 111]) == "Zm9v";
    StripsPads("Zm9v");
  }

  lemma SafeVector()
    ensures B64UrlEncode([251, 239, 255]) == "--__"
  {
    assert Encode(UrlAlphabet(), [251, 239, 255]) == "--__";
    StripsPads("--__");
  }

  /** Test vectors of section 10 of RFC 4648, without their padding, and one that
      uses the two characters of the URL-safe alphabet. */
  lemma KnownVectors()
    ensures B64UrlEncode([]) == "" && B64UrlEncode([102]) == "Zg" && B64UrlEncode([102, 111]) == "Zm8"
    ensures B64UrlEncode([102, 111, 111]) == "Zm9v" && B64UrlEncode([251, 239, 255]) == "--__"
  {
    WholeVector();
    SafeVector();
    var abc := UrlAlphabet();
    assert Encode(abc, [102]) == "Zg" + "==" && Encode(abc, [102, 111]) == "Zm8" + "=";
    StripsPads("Zg");
    StripsPads("Zm8");
  }
}
