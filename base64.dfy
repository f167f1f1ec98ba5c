/** The base 64 encoding of section 4 of RFC 4648 (alphabet A-Z a-z 0-9 + /, with
    '=' padding), as used by `btoa` on the desktop and by `base64.b64encode` /
    `base64.b64decode` on the backend. */
module Base64 {
  import opened Wrappers

  newtype byte = x: int | 0 <= x < 256

  /** The character for a 6-bit value (Table 1 of RFC 4648). */
  function Sym(v: int): (c: char)
    requires 0 <= v < 64
  {
    if v < 26 then (65 + v) as char
    else if v < 52 then (97 + v - 26) as char
    else if v < 62 then (48 + v - 52) as char
    else if v == 62 then '+'
    else '/'
  }

  /** The 6-bit value of an alphabet character; None for '=' and anything outside the alphabet. */
  function Val(c: char): (r: Option<int>)
    ensures r.Some? ==> 0 <= r.value < 64
  {
    if 'A' <= c <= 'Z' then Some(c as int - 65)
    else if 'a' <= c <= 'z' then Some(c as int - 97 + 26)
    else if '0' <= c <= '9' then Some(c as int - 48 + 52)
    else if c == '+' then Some(62)
    else if c == '/' then Some(63)
    else None
  }

  lemma ValSym(v: int)
    requires 0 <= v < 64
    ensures Val(Sym(v)) == Some(v)
  {
  }

  /** Three bytes as four characters. */
  function EncodeGroup(b0: byte, b1: byte, b2: byte): seq<char> {
    var x, y, z := b0 as int, b1 as int, b2 as int;
    [Sym(x / 4), Sym((x % 4) * 16 + y / 16), Sym((y % 16) * 4 + z / 64), Sym(z % 64)]
  }

  /** One byte left: two characters and "==". */
  function EncodeOne(b0: byte): seq<char> {
    var x := b0 as int;
    [Sym(x / 4), Sym((x % 4) * 16), '=', '=']
  }

  /** Two bytes left: three characters and "=". */
  function EncodeTwo(b0: byte, b1: byte): seq<char> {
    var x, y := b0 as int, b1 as int;
    [Sym(x / 4), Sym((x % 4) * 16 + y / 16), Sym((y % 16) * 4), '=']
  }

  /** The encoding: whole groups, then a final group padded with "==" (one byte
      left) or "=" (two bytes left). */
  function Encode(bs: seq<byte>): seq<char>
    decreases |bs|
  {
    if |bs| == 0 then []
    else if |bs| == 1 then EncodeOne(bs[0])
    else if |bs| == 2 then EncodeTwo(bs[0], bs[1])
    else EncodeGroup(bs[0], bs[1], bs[2]) + Encode(bs[3..])
  }

  /** Four 6-bit values as three bytes. */
  function Bytes3(c0: int, c1: int, c2: int, c3: int): seq<byte>
    requires 0 <= c0 < 64 && 0 <= c1 < 64 && 0 <= c2 < 64 && 0 <= c3 < 64
  {
    [(c0 * 4 + c1 / 16) as byte, ((c1 % 16) * 16 + c2 / 4) as byte, ((c2 % 4) * 64 + c3) as byte]
  }

  /** A quantum of four characters in the middle of the text: no padding allowed. */
  function DecodeFull(q: seq<char>): Option<seq<byte>>
    requires |q| == 4
  {
    match (Val(q[0]), Val(q[1]), Val(q[2]), Val(q[3]))
    case (Some(c0), Some(c1), Some(c2), Some(c3)) => Some(Bytes3(c0, c1, c2, c3))
    case _ => None
  }

  /** The last quantum: a full group, or one padded with "==" or "=". Bits below the
      last whole byte are ignored, as `base64.b64decode` ignores them. */
  function DecodeLast(q: seq<char>): Option<seq<byte>>
    requires |q| == 4
  {
    match (Val(q[0]), Val(q[1]), Val(q[2]), Val(q[3]))
    case (Some(c0), Some(c1), Some(c2), Some(c3)) => Some(Bytes3(c0, c1, c2, c3))
    case (Some(c0), Some(c1), None, None) =>
      if q[2] == '=' && q[3] == '=' then Some(Bytes3(c0, c1, 0, 0)[..1]) else None
    case (Some(c0), Some(c1), Some(c2), None) =>
      if q[3] == '=' then Some(Bytes3(c0, c1, c2, 0)[..2]) else None
    case _ => None
  }

  /** Decoding of a canonical encoding; None for a length that is not a multiple
      of four, a character outside the alphabet, or misplaced padding. */
  function Decode(s: seq<char>): Option<seq<byte>>
    decreases |s|
  {
    if |s| == 0 then Some([])
    else if |s| < 4 then None
    else if |s| == 4 then DecodeLast(s)
    else
      match DecodeFull(s[..4])
      case None => None
      case Some(g) =>
        match Decode(s[4..])
        case None => None
        case Some(rest) => Some(g + rest)
  }

  lemma GroupRoundTrip(b0: byte, b1: byte, b2: byte)
    ensures var x, y, z := b0 as int, b1 as int, b2 as int;
      Bytes3(x / 4, (x % 4) * 16 + y / 16, (y % 16) * 4 + z / 64, z % 64) == [b0, b1, b2]
  {
    var x, y, z := b0 as int, b1 as int, b2 as int;
    var c1 := (x % 4) * 16 + y / 16;
    var c2 := (y % 16) * 4 + z / 64;
    assert c1 / 16 == x % 4 && c1 % 16 == y / 16;
    assert c2 / 4 == y % 16 && c2 % 4 == z / 64;
  }

  /** Every three bytes become four characters, and a final one or two bytes
      become a padded quantum of four. */
  lemma {:induction false} EncodeLength(bs: seq<byte>)
    ensures |Encode(bs)| == 4 * ((|bs| + 2) / 3)
    decreases |bs|
  {
    if |bs| > 2 {
      EncodeLength(bs[3..]);
      assert |Encode(bs)| == 4 + |Encode(bs[3..])|;
      assert (|bs| - 3 + 2) / 3 + 1 == (|bs| + 2) / 3;
    }
  }

  /** A padded quantum for one byte decodes to that byte. */
  lemma DecodeOne(b0: byte)
    ensures DecodeLast(EncodeOne(b0)) == Some([b0])
  {
    var x := b0 as int;
    ValSym(x / 4);
    ValSym((x % 4) * 16);
    GroupRoundTrip(b0, 0, 0);
    assert Bytes3(x / 4, (x % 4) * 16, 0, 0)[..1] == [b0];
  }

  /** A padded quantum for two bytes decodes to those bytes. */
  lemma DecodeTwo(b0: byte, b1: byte)
    ensures DecodeLast(EncodeTwo(b0, b1)) == Some([b0, b1])
  {
    var x, y := b0 as int, b1 as int;
    ValSym(x / 4);
    ValSym((x % 4) * 16 + y / 16);
    ValSym((y % 16) * 4);
    GroupRoundTrip(b0, b1, 0);
    assert Bytes3(x / 4, (x % 4) * 16 + y / 16, (y % 16) * 4, 0)[..2] == [b0, b1];
  }

  /** A full quantum decodes to its three bytes, in the middle or at the end. */
  lemma DecodeGroup(b0: byte, b1: byte, b2: byte)
    ensures |EncodeGroup(b0, b1, b2)| == 4
    ensures DecodeFull(EncodeGroup(b0, b1, b2)) == Some([b0, b1, b2])
    ensures DecodeLast(EncodeGroup(b0, b1, b2)) == Some([b0, b1, b2])
  {
    var x, y, z := b0 as int, b1 as int, b2 as int;
    var g := EncodeGroup(b0, b1, b2);
    ValSym(x / 4);
    ValSym((x % 4) * 16 + y / 16);
    ValSym((y % 16) * 4 + z / 64);
    ValSym(z % 64);
    GroupRoundTrip(b0, b1, b2);
    assert Val(g[0]) == Some(x / 4) && Val(g[1]) == Some((x % 4) * 16 + y / 16);
    assert Val(g[2]) == Some((y % 16) * 4 + z / 64) && Val(g[3]) == Some(z % 64);
  }

  /** Decoding undoes encoding. */
  lemma {:induction false} DecodeEncode(bs: seq<byte>)
    ensures Decode(Encode(bs)) == Some(bs)
    decreases |bs|
  {
    if |bs| == 1 {
      assert bs == [bs[0]];
      DecodeOne(bs[0]);
    } else if |bs| == 2 {
      assert bs == [bs[0], bs[1]];
      DecodeTwo(bs[0], bs[1]);
    } else if |bs| > 2 {
      var tail := bs[3..];
      DecodeEncode(tail);
      assert bs == [bs[0], bs[1], bs[2]] + tail;
      DecodeStep(bs[0], bs[1], bs[2], tail);
    }
  }

  /** A whole group in front of a text that decodes: the group's three bytes
      come first. */
  lemma DecodeStep(b0: byte, b1: byte, b2: byte, tail: seq<byte>)
    requires Decode(Encode(tail)) == Some(tail)
    ensures Decode(EncodeGroup(b0, b1, b2) + Encode(tail)) == Some([b0, b1, b2] + tail)
  {
    var g := EncodeGroup(b0, b1, b2);
    var rest := Encode(tail);
    DecodeGroup(b0, b1, b2);
    var s := g + rest;
    assert s[..4] == g && s[4..] == rest;
    if tail == [] {
      assert s == g && |s| == 4;
      assert Decode(s) == DecodeLast(g);
      assert [b0, b1, b2] + tail == [b0, b1, b2];
    } else {
      EncodeLength(tail);
      assert (|tail| + 2) / 3 >= 1;
      assert |s| > 4;
      assert Decode(s) == Some([b0, b1, b2] + tail);
    }
  }
}
