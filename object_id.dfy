/**
 * MongoDB ObjectIDs as the services use them: twelve bytes, written as 24 hex
 * digits. `FromHex` follows primitive.ObjectIDFromHex (a byte-length check,
 * then hex.DecodeString), `Hex` follows ObjectID.Hex().
 */
module ObjectIds {
  import opened Wrappers
  import Text

  newtype byte = x: int | 0 <= x < 256

  type ObjectId = s: seq<byte> | |s| == 12 witness [0, 0, 0, 0, 0, 0, 0, 0, 0, 0, 0, 0]

  /** primitive.NilObjectID, the zero value: bson's omitempty leaves it out of a document. */
  const Nil: ObjectId := [0, 0, 0, 0, 0, 0, 0, 0, 0, 0, 0, 0]

  /** primitive.ErrInvalidHex, returned when the input is not 24 bytes long. */
  const ErrInvalidHex := "the provided hex string is not a valid ObjectID"

  predicate IsHex(s: string)
  {
    forall i :: 0 <= i < |s| ==> Text.IsHexChar(s[i])
  }

  /** The lower-case hex digit of `v`. */
  function HexDigit(v: nat): (c: char)
    requires v < 16
    ensures Text.IsHexChar(c) && Text.HexValue(c) == v && !('A' <= c <= 'F')
  {
    if v < 10 then ('0' as int + v) as char else ('a' as int + v - 10) as char
  }

  function HexOf(bs: seq<byte>): (r: string)
    ensures |r| == 2 * |bs| && IsHex(r)
  {
    if bs == [] then ""
    else [HexDigit(bs[0] as nat / 16), HexDigit(bs[0] as nat % 16)] + HexOf(bs[1..])
  }

  /** ObjectID.Hex(). */
  function Hex(id: ObjectId): (r: string)
    ensures |r| == 24 && IsHex(r)
    ensures forall i :: 0 <= i < |r| ==> !('A' <= r[i] <= 'F')
  {
    HexOfLower(id);
    HexOf(id)
  }

  lemma {:induction false} HexOfLower(bs: seq<byte>)
    ensures forall i :: 0 <= i < |HexOf(bs)| ==> !('A' <= HexOf(bs)[i] <= 'F')
  {
    if bs != [] {
      HexOfLower(bs[1..]);
    }
  }

  function DecodeHex(s: string): (bs: seq<byte>)
    requires |s| % 2 == 0 && IsHex(s)
    ensures |bs| == |s| / 2
  {
    if |s| == 0 then []
    else [(Text.HexValue(s[0]) * 16 + Text.HexValue(s[1])) as byte] + DecodeHex(s[2..])
  }

  /** The position of the first character that is not a hex digit. */
  function FirstNonHex(s: string): (r: Option<nat>)
    ensures r.Some? ==> r.value < |s| && !Text.IsHexChar(s[r.value])
    ensures r.Some? ==> forall i :: 0 <= i < r.value ==> Text.IsHexChar(s[i])
    ensures r.None? <==> IsHex(s)
  {
    if |s| == 0 then None
    else if !Text.IsHexChar(s[0]) then Some(0)
    else match FirstNonHex(s[1..])
      case None => None
      case Some(i) => Some(i + 1)
  }

  function UpperHexDigit(v: nat): char
    requires v < 16
  {
    if v < 10 then ('0' as int + v) as char else ('A' as int + v - 10) as char
  }

  /** strconv.IsPrint restricted to the code points U+0000 to U+00FF. */
  predicate PrintableLatin1(b: nat)
  {
    (0x20 <= b <= 0x7E) || (0xA1 <= b <= 0xFF && b != 0xAD)
  }

  /** hex.InvalidByteError(b).Error(), which formats the byte with %#U. */
  function InvalidByteMessage(b: nat): string
    requires b < 256
  {
    "encoding/hex: invalid byte: U+00" + [UpperHexDigit(b / 16), UpperHexDigit(b % 16)]
    + (if PrintableLatin1(b) then " '" + [b as char] + "'" else "")
  }

  /** primitive.ObjectIDFromHex: the Go byte length must be 24, then every byte must be a hex digit. */
  function FromHex(s: string): (r: Result<ObjectId, string>)
    ensures Text.ByteLength(s) != 24 ==> r == Err(ErrInvalidHex)
    ensures r.Err? && Text.ByteLength(s) == 24 ==>
      FirstNonHex(s).Some? && r.error == InvalidByteMessage(Text.FirstUtf8Byte(s[FirstNonHex(s).value]))
  {
    if Text.ByteLength(s) != 24 then Err(ErrInvalidHex)
    else match FirstNonHex(s)
      case Some(i) => Err(InvalidByteMessage(Text.FirstUtf8Byte(s[i])))
      case None =>
        assert forall i :: 0 <= i < |s| ==> (s[i] as int) < 0x80;
        var id: ObjectId := DecodeHex(s);
        Ok(id)
  }

  /** An id string is accepted exactly when it is 24 hex digits. */
  lemma FromHexAccepts(s: string)
    ensures FromHex(s).Ok? <==> |s| == 24 && IsHex(s)
  {
    if IsHex(s) {
      assert forall i :: 0 <= i < |s| ==> (s[i] as int) < 0x80;
    }
  }

  lemma {:induction false} DecodeHexOf(bs: seq<byte>)
    ensures DecodeHex(HexOf(bs)) == bs
  {
    if bs != [] {
      var h := HexOf(bs);
      assert h[2..] == HexOf(bs[1..]);
      DecodeHexOf(bs[1..]);
    }
  }

  /** Hex and FromHex are inverse: every id survives being written out and parsed back. */
  lemma HexRoundTrip(id: ObjectId)
    ensures FromHex(Hex(id)) == Ok(id)
  {
    var h := Hex(id);
    assert forall i :: 0 <= i < |h| ==> (h[i] as int) < 0x80;
    DecodeHexOf(id);
  }

  lemma {:induction false} HexOfDecode(s: string)
    requires |s| % 2 == 0 && IsHex(s)
    ensures HexOf(DecodeHex(s)) == Text.LowerAll(s)
  {
    if |s| > 0 {
      var b := (Text.HexValue(s[0]) * 16 + Text.HexValue(s[1])) as byte;
      var rest := DecodeHex(s[2..]);
      assert DecodeHex(s) == [b] + rest;
      assert ([b] + rest)[1..] == rest;
      HexOfDecode(s[2..]);
      HexPair(s[0], s[1]);
      LowerAllSplit(s);
    }
  }

  /** The two digits written for a decoded byte are the two digits read, in lower case. */
  lemma HexPair(c0: char, c1: char)
    requires Text.IsHexChar(c0) && Text.IsHexChar(c1)
    ensures var v := Text.HexValue(c0) * 16 + Text.HexValue(c1);
      v < 256 && [HexDigit(v / 16), HexDigit(v % 16)] == [Text.Lower(c0), Text.Lower(c1)]
  {
    var v := Text.HexValue(c0) * 16 + Text.HexValue(c1);
    assert v / 16 == Text.HexValue(c0) && v % 16 == Text.HexValue(c1);
  }

  lemma LowerAllSplit(s: string)
    requires |s| >= 2
    ensures Text.LowerAll(s) == [Text.Lower(s[0]), Text.Lower(s[1])] + Text.LowerAll(s[2..])
  {
  }

  /** Two accepted id strings name the same id exactly when they agree up to the case of their letters. */
  lemma FromHexCanonical(s: string)
    requires FromHex(s).Ok?
    ensures Hex(FromHex(s).value) == Text.LowerAll(s)
  {
    FromHexAccepts(s);
    HexOfDecode(s);
  }

  /** The big-endian value of the bytes: MongoDB orders ObjectIDs by it. */
  function BytesValue(bs: seq<byte>): nat
  {
    if bs == [] then 0 else BytesValue(bs[..|bs| - 1]) * 256 + bs[|bs| - 1] as nat
  }
}
