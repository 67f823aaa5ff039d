/**
 * `base64.b64encode(data).decode()`: the base 64 encoding of section 4 of
 * RFC 4648 (alphabet A-Z a-z 0-9 + /, '=' padding), with the decoding that
 * undoes it.
 */
module Base64 {
  import opened Wrappers

  /** An octet, as Python's `bytes` holds it. */
  newtype byte = b: int | 0 <= b < 256

  /** The character of a 6-bit value. */
  function Char(n: nat): (c: char)
    requires n < 64
    ensures IsBase64Char(c)
  {
    if n < 26 then ('A' as int + n) as char
    else if n < 52 then ('a' as int + (n - 26)) as char
    else if n < 62 then ('0' as int + (n - 52)) as char
    else if n == 62 then '+'
    else '/'
  }

  predicate IsBase64Char(c: char) {
    'A' <= c <= 'Z' || 'a' <= c <= 'z' || '0' <= c <= '9' || c == '+' || c == '/'
  }

  /** The 6-bit value of an alphabet character. */
  function Value(c: char): (n: nat)
    requires IsBase64Char(c)
    ensures n < 64 && Char(n) == c
  {
    if 'A' <= c <= 'Z' then c as int - 'A' as int
    else if 'a' <= c <= 'z' then c as int - 'a' as int + 26
    else if '0' <= c <= '9' then c as int - '0' as int + 52
    else if c == '+' then 62
    else 63
  }

  lemma ValueOfChar(n: nat)
    requires n < 64
    ensures Value(Char(n)) == n
  {
  }

  /** One group of one to three bytes as four characters, padded with '='. */
  function EncodeGroup(b: seq<byte>): (r: string)
    requires 1 <= |b| <= 3
    ensures |r| == 4
  {
    var b0 := b[0] as int;
    var b1 := if |b| > 1 then b[1] as int else 0;
    var b2 := if |b| > 2 then b[2] as int else 0;
    [Char(b0 / 4), Char(b0 % 4 * 16 + b1 / 16),
     if |b| > 1 then Char(b1 % 16 * 4 + b2 / 64) else '=',
     if |b| > 2 then Char(b2 % 64) else '=']
  }

  /** The encoding: four characters per started group of three bytes. */
  function Encode(b: seq<byte>): (r: string)
    ensures |r| == 4 * ((|b| + 2) / 3)
    ensures |b| > 0 ==> |r| > 0
    decreases |b|
  {
    if b == [] then ""
    else if |b| <= 3 then EncodeGroup(b)
    else
      assert (|b[3..]| + 2) / 3 == (|b| + 2) / 3 - 1;
      EncodeGroup(b[..3]) + Encode(b[3..])
  }

  /** Four characters back to the bytes they encode, or `None` when they are not a group. */
  function DecodeGroup(s: string): (r: Option<seq<byte>>)
    requires |s| == 4
  {
    if !IsBase64Char(s[0]) || !IsBase64Char(s[1]) then None
    else
      var c0, c1 := Value(s[0]), Value(s[1]);
      var b0 := (c0 * 4 + c1 / 16) as byte;
      if s[2] == '=' && s[3] == '=' then Some([b0])
      else if !IsBase64Char(s[2]) then None
      else
        var c2 := Value(s[2]);
        var b1 := (c1 % 16 * 16 + c2 / 4) as byte;
        if s[3] == '=' then Some([b0, b1])
        else if !IsBase64Char(s[3]) then None
        else Some([b0, b1, (c2 % 4 * 64 + Value(s[3])) as byte])
  }

  /** Decodes a text of whole groups. */
  function Decode(s: string): Option<seq<byte>>
    decreases |s|
  {
    if s == [] then Some([])
    else if |s| < 4 then None
    else
      match DecodeGroup(s[..4])
      case None => None
      case Some(group) =>
        if |group| < 3 && |s| > 4 then None
        else
          match Decode(s[4..])
          case None => None
          case Some(rest) => Some(group + rest)
  }

  lemma DecodeEncodeOne(b: seq<byte>)
    requires |b| == 1
    ensures DecodeGroup(EncodeGroup(b)) == Some(b)
  {
    var b0 := b[0] as int;
    var c0, c1 := b0 / 4, b0 % 4 * 16;
    assert c0 * 4 + c1 / 16 == b0;
    ValueOfChar(c0);
    ValueOfChar(c1);
    assert b == [b0 as byte];
  }

  lemma DecodeEncodeTwo(b: seq<byte>)
    requires |b| == 2
    ensures DecodeGroup(EncodeGroup(b)) == Some(b)
  {
    var b0, b1 := b[0] as int, b[1] as int;
    var c0, c1, c2 := b0 / 4, b0 % 4 * 16 + b1 / 16, b1 % 16 * 4;
    assert c0 * 4 + c1 / 16 == b0;
    assert c1 % 16 * 16 + c2 / 4 == b1;
    ValueOfChar(c0);
    ValueOfChar(c1);
    ValueOfChar(c2);
    assert b == [b0 as byte, b1 as byte];
  }

  lemma DecodeEncodeThree(b: seq<byte>)
    requires |b| == 3
    ensures DecodeGroup(EncodeGroup(b)) == Some(b)
  {
    var b0, b1, b2 := b[0] as int, b[1] as int, b[2] as int;
    var c0, c1, c2, c3 := b0 / 4, b0 % 4 * 16 + b1 / 16, b1 % 16 * 4 + b2 / 64, b2 % 64;
    assert c0 * 4 + c1 / 16 == b0;
    assert c1 % 16 * 16 + c2 / 4 == b1;
    assert c2 % 4 * 64 + c3 == b2;
    ValueOfChar(c0);
    ValueOfChar(c1);
    ValueOfChar(c2);
    ValueOfChar(c3);
    assert b == [b0 as byte, b1 as byte, b2 as byte];
  }

  lemma DecodeEncodeGroup(b: seq<byte>)
    requires 1 <= |b| <= 3
    ensures DecodeGroup(EncodeGroup(b)) == Some(b)
  {
    if |b| == 1 {
      DecodeEncodeOne(b);
    } else if |b| == 2 {
      DecodeEncodeTwo(b);
    } else {
      DecodeEncodeThree(b);
    }
  }

  /** Decoding undoes the encoding. */
  lemma {:induction false} DecodeEncode(b: seq<byte>)
    ensures Decode(Encode(b)) == Some(b)
    decreases |b|
  {
    if b == [] {
    } else if |b| <= 3 {
      DecodeEncodeGroup(b);
      assert EncodeGroup(b)[4..] == [];
      assert EncodeGroup(b)[..4] == EncodeGroup(b);
      assert b + [] == b;
    } else {
      var s := Encode(b);
      assert s == EncodeGroup(b[..3]) + Encode(b[3..]);
      assert s[..4] == EncodeGroup(b[..3]);
      assert s[4..] == Encode(b[3..]);
      DecodeEncodeGroup(b[..3]);
      DecodeEncode(b[3..]);
      assert b[..3] + b[3..] == b;
    }
  }

  /** Every character of an encoding is in the alphabet or is padding. */
  lemma {:induction false} EncodeAlphabet(b: seq<byte>)
    ensures forall i :: 0 <= i < |Encode(b)| ==> IsBase64Char(Encode(b)[i]) || Encode(b)[i] == '='
    decreases |b|
  {
    if |b| > 3 {
      EncodeAlphabet(b[3..]);
      var g, rest := EncodeGroup(b[..3]), Encode(b[3..]);
      assert Encode(b) == g + rest;
      assert forall i :: 4 <= i < |g + rest| ==> (g + rest)[i] == rest[i - 4];
    }
  }
}
