/**
 * The 12-byte document identifier of the MongoDB driver (bson/primitive):
 * its hex rendering and primitive.ObjectIDFromHex.
 */
module Primitive {
  import opened Wrappers
  import opened Errors

  type Byte = b: int | 0 <= b < 256

  /** A 12-byte object identifier. */
  type ObjectId = b: seq<Byte> | |b| == 12 witness [0, 0, 0, 0, 0, 0, 0, 0, 0, 0, 0, 0]

  /** primitive.ErrInvalidHex. */
  const InvalidHexMessage := "the provided hex string is not a valid ObjectID"

  /** encoding/hex's InvalidByteError, without the offending character. */
  const InvalidByteMessage := "encoding/hex: invalid byte"

  /** The value of one hexadecimal digit; hex.Decode accepts both cases. */
  function HexValue(c: char): (r: Option<int>)
    ensures r.Some? ==> 0 <= r.value < 16
  {
    if '0' <= c <= '9' then Some(c as int - '0' as int)
    else if 'a' <= c <= 'f' then Some(c as int - 'a' as int + 10)
    else if 'A' <= c <= 'F' then Some(c as int - 'A' as int + 10)
    else None
  }

  /** The lower-case hexadecimal digit for a value below 16. */
  function HexDigit(v: int): (c: char)
    requires 0 <= v < 16
    ensures HexValue(c) == Some(v)
  {
    if v < 10 then ('0' as int + v) as char else ('a' as int + v - 10) as char
  }

  /** hex.EncodeToString: two lower-case digits per byte. */
  function EncodeHex(b: seq<Byte>): (s: string)
    ensures |s| == 2 * |b|
  {
    if b == [] then [] else [HexDigit(b[0] / 16), HexDigit(b[0] % 16)] + EncodeHex(b[1..])
  }

  /** hex.Decode over a string of even length: None on the first character that is not a hex digit. */
  function DecodeHex(s: string): (r: Option<seq<Byte>>)
    requires |s| % 2 == 0
    ensures r.Some? ==> |r.value| * 2 == |s|
  {
    if s == [] then Some([])
    else
      match (HexValue(s[0]), HexValue(s[1]), DecodeHex(s[2..]))
      case (Some(hi), Some(lo), Some(rest)) => Some([hi * 16 + lo] + rest)
      case _ => None
  }

  /** ObjectID.Hex. */
  function Hex(id: ObjectId): (s: string)
    ensures |s| == 24
  {
    EncodeHex(id)
  }

  /** primitive.ObjectIDFromHex: exactly 24 hex digits, or an error. */
  function ObjectIdFromHex(s: string): (r: Result<ObjectId, Error>)
    ensures r.Success? ==> |s| == 24
    ensures |s| != 24 ==> r == Failure(Leaf(InvalidHexMessage))
  {
    if |s| != 24 then Failure(Leaf(InvalidHexMessage))
    else
      match DecodeHex(s)
      case Some(b) => Success(b)
      case None => Failure(Leaf(InvalidByteMessage))
  }

  lemma {:induction false} DecodeEncodeHex(b: seq<Byte>)
    ensures DecodeHex(EncodeHex(b)) == Some(b)
  {
    if b != [] {
      var s := EncodeHex(b);
      assert s[2..] == EncodeHex(b[1..]);
      DecodeEncodeHex(b[1..]);
      assert HexValue(s[0]) == Some(b[0] / 16);
      assert HexValue(s[1]) == Some(b[0] % 16);
      assert [b[0] / 16 * 16 + b[0] % 16] + b[1..] == b;
    }
  }

  /** The round trip a handler relies on: the hex of an identifier parses back to it. */
  lemma ObjectIdFromHexOfHex(id: ObjectId)
    ensures ObjectIdFromHex(Hex(id)) == Success(id)
  {
    DecodeEncodeHex(id);
  }

  /** A string with a character that is not a hex digit never converts. */
  lemma {:induction false} DecodeHexRejects(s: string, i: int)
    requires |s| % 2 == 0 && 0 <= i < |s| && HexValue(s[i]).None?
    ensures DecodeHex(s).None?
  {
    if i >= 2 {
      DecodeHexRejects(s[2..], i - 2);
    }
  }
}
