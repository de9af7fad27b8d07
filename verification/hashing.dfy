/**
  The digests the naming callbacks embed in file names, and an unambiguous
  encoding of several fields into the single string a digest is taken over.
 */
module Hashing {
  import opened Common
  import opened JsValues
  import NodePath

  predicate IsLowerHexChar(c: char) {
    ('0' <= c <= '9') || ('a' <= c <= 'f')
  }

  /** What `hash.digest('hex')` returns for MD5: 32 lower-case hexadecimal characters. */
  type Digest = s: string | |s| == 32 && forall i | 0 <= i < |s| :: IsLowerHexChar(s[i])
    witness "00000000000000000000000000000000"

  /** The `_<digest>` tag a content-addressed file name carries contains no dot, slash or `#`. */
  lemma DigestTagCharacters(d: Digest)
    ensures |"_" + d| == 33
    ensures '.' !in "_" + d && '/' !in "_" + d && '#' !in "_" + d
  {
    var t := "_" + d;
    assert forall i | 1 <= i < |t| :: t[i] == d[i - 1];
  }

  /** One field framed as `<decimal length>:<field>`. */
  function Frame(field: string): string {
    Decimal(|field|) + ":" + field
  }

  /** The fields framed one after the other. */
  function Encode(fields: seq<string>): string {
    if |fields| == 0 then "" else Frame(fields[0]) + Encode(fields[1..])
  }

  /** Reads framed fields back; `None` when `s` is not a sequence of frames. */
  function Decode(s: string): Option<seq<string>>
    decreases |s|
  {
    if |s| == 0 then Some([])
    else
      var k := NodePath.FirstIndexOf(s, ':');
      if k == |s| || !AllDigits(s[..k]) then None
      else
        var n := ParseDecimal(s[..k]);
        if k + 1 + n > |s| then None
        else
          match Decode(s[k + 1 + n..])
          case None => None
          case Some(rest) => Some([s[k + 1..k + 1 + n]] + rest)
  }

  lemma FirstColonOfFrame(field: string, rest: string)
    ensures NodePath.FirstIndexOf(Frame(field) + rest, ':') == |Decimal(|field|)|
  {
    var d := Decimal(|field|);
    var s := Frame(field) + rest;
    assert s[|d|] == ':';
    assert forall i | 0 <= i < |d| :: s[i] == d[i];
  }

  /** Decoding a frame followed by more text yields the framed field, then whatever the rest decodes to. */
  lemma DecodeFrame(field: string, rest: string)
    ensures Decode(Frame(field) + rest) == match Decode(rest) case None => None case Some(r) => Some([field] + r)
  {
    var d := Decimal(|field|);
    var s := Frame(field) + rest;
    FirstColonOfFrame(field, rest);
    var k := |d|;
    assert s[..k] == d;
    ParseDecimalInvertsDecimal(|field|);
    assert s[k + 1..k + 1 + |field|] == field;
    assert s[k + 1 + |field|..] == rest;
  }

  /** Decoding a non-empty encoding yields its first field, then the decoding of the rest. */
  lemma DecodeCons(fields: seq<string>)
    requires |fields| > 0
    ensures Decode(Encode(fields)) == match Decode(Encode(fields[1..])) case None => None case Some(r) => Some([fields[0]] + r)
  {
    DecodeFrame(fields[0], Encode(fields[1..]));
  }

  /** Decoding undoes encoding. */
  lemma {:induction false} DecodeEncode(fields: seq<string>)
    ensures Decode(Encode(fields)) == Some(fields)
    decreases |fields|
  {
    if |fields| > 0 {
      DecodeCons(fields);
      DecodeEncode(fields[1..]);
      assert [fields[0]] + fields[1..] == fields;
    }
  }

  /** Different field lists never share an encoding, so a digest over it separates them. */
  lemma EncodeInjective(a: seq<string>, b: seq<string>)
    ensures Encode(a) == Encode(b) <==> a == b
  {
    DecodeEncode(a);
    DecodeEncode(b);
  }
}
