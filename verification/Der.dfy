// The DER OCTET STRING helpers for `CKA_EC_POINT` (sections 8.1.3, 8.7 and 10.1 of X.690).
module Der {
  import opened Results

  const TAG: byte := 0x04

  // Length octets of the shortest definite form, for contents below 65536 bytes.
  function LengthOctets(n: nat): seq<byte>
    requires n < 0x1_0000
  {
    if n < 0x80 then [n]
    else if n < 0x100 then [0x81, n]
    else [0x82, n / 0x100, n % 0x100]
  }

  function Encoded(content: seq<byte>): seq<byte>
    requires |content| < 0x1_0000
  {
    [TAG] + LengthOctets(|content|) + content
  }

  // The conversion `u8::try_from(len >> 8)` panics from 65536 bytes on.
  method Encode(content: seq<byte>) returns (r: Result<seq<byte>>)
    ensures r == if |content| < 0x1_0000 then Ok(Encoded(content)) else Err(LengthPanic)
  {
    var n := |content|;
    var out: seq<byte> := [0x04];
    if n < 0x80 {
      out := out + [n];
    } else if n < 0x100 {
      out := out + [0x81];
      out := out + [n];
    } else {
      out := out + [0x82];
      if n / 0x100 >= 0x100 {
        return Err(LengthPanic);
      }
      out := out + [n / 0x100];
      out := out + [n % 0x100];
    }
    assert out == [TAG] + LengthOctets(n);
    out := out + content;
    return Ok(out);
  }

  // Header length and content length read from the second octet on; none when it is malformed.
  function Header(input: seq<byte>): Option<(nat, nat)>
    requires |input| >= 2
  {
    if input[1] < 0x80 then Some((2, input[1]))
    else if input[1] == 0x81 && |input| >= 3 then Some((3, input[2]))
    else if input[1] == 0x82 && |input| >= 4 then Some((4, (input[2] as int) * 0x100 + input[3]))
    else None
  }

  function DecodeLenient(input: seq<byte>): Result<seq<byte>> {
    if input == [] then Err(EmptyPoint)
    else if input[0] == TAG && |input| >= 2 then
      match Header(input)
      case None => Err(MalformedLength)
      case Some((h, n)) => if |input| < h + n then Err(Truncated) else Ok(input[h..h + n])
    else Ok(input)
  }

  // Whatever follows the encoding is ignored.
  lemma DecodeEncode(content: seq<byte>, tail: seq<byte>)
    requires |content| < 0x1_0000
    ensures DecodeLenient(Encoded(content) + tail) == Ok(content)
  {
    var n := |content|;
    var head := [TAG] + LengthOctets(n);
    var input := Encoded(content) + tail;
    assert input == head + content + tail;
    assert input[0] == TAG && input[1] == head[1];
    if n >= 0x80 {
      assert input[2] == head[2];
    }
    if n >= 0x100 {
      assert input[3] == head[3];
    }
    assert Header(input) == Some((|head|, n));
    assert input[|head|..|head| + n] == content;
  }

  // The length octets the decoder understands, minimal or not.
  predicate LengthForm(head: seq<byte>, n: nat) {
    || (|head| == 1 && head[0] == n && n < 128)
    || (|head| == 2 && head[0] == 129 && head[1] == n)
    || (|head| == 3 && head[0] == 130 && head[1] as int * 256 + head[2] == n)
  }

  // What a tagged input decodes to: exactly the content that follows one of these.
  lemma DecodeTagged(input: seq<byte>, content: seq<byte>)
    requires |input| >= 2 && input[0] == 4
    ensures DecodeLenient(input) == Ok(content)
       <==> exists head :: LengthForm(head, |content|) && [4] + head + content <= input
  {
    if DecodeLenient(input) == Ok(content) {
      var (h, n) := Header(input).value;
      var head := input[1..h];
      assert LengthForm(head, n) && [4] + head + content == input[..h + n];
    }
    forall head | LengthForm(head, |content|) && [4] + head + content <= input
      ensures DecodeLenient(input) == Ok(content)
    {
      FormDecodes(input, head, content);
    }
  }

  lemma FormDecodes(input: seq<byte>, head: seq<byte>, content: seq<byte>)
    requires LengthForm(head, |content|) && [4] + head + content <= input
    ensures DecodeLenient(input) == Ok(content)
  {
    var all := [4] + head + content;
    assert forall k :: 0 <= k < |head| ==> all[k + 1] == head[k] == input[k + 1];
    assert input[1] == head[0];
    assert |head| > 1 ==> input[2] == head[1];
    assert |head| > 2 ==> input[3] == head[2];
    assert Header(input) == Some((1 + |head|, |content|));
    assert input[..|all|] == all && all[1 + |head|..] == content;
    assert input[..|all|][1 + |head|..] == input[1 + |head|..|all|];
  }

  // No two contents share an encoding, even as prefixes of longer inputs.
  lemma EncodePrefixFree(a: seq<byte>, b: seq<byte>, x: seq<byte>, y: seq<byte>)
    requires |a| < 0x1_0000 && |b| < 0x1_0000
    requires Encoded(a) + x == Encoded(b) + y
    ensures a == b && x == y
  {
    DecodeEncode(a, x);
    DecodeEncode(b, y);
    var e := |Encoded(a)|;
    assert x == (Encoded(a) + x)[e..];
    assert y == (Encoded(b) + y)[e..];
  }

  // The encoder uses the shortest header the decoder understands for that length.
  lemma EncodeShortest(content: seq<byte>, input: seq<byte>)
    requires |content| < 0x1_0000
    requires |input| >= 2 && input[0] == TAG && DecodeLenient(input) == Ok(content)
    ensures |Encoded(content)| <= |input|
  {
    var Some((h, n)) := Header(input);
    assert n == |content|;
  }

  // Decoding is the identity exactly where the tag test fails. Everywhere else a result is at
  // least two bytes shorter than the input.
  lemma DecodeIdentity(input: seq<byte>)
    ensures DecodeLenient(input) == Ok(input)
       <==> input != [] && (|input| == 1 || input[0] != 4)
    ensures |input| >= 2 && input[0] == 4 && DecodeLenient(input).Ok?
            ==> |DecodeLenient(input).value| <= |input| - 2
  {
    if |input| >= 2 && input[0] == TAG && Header(input).Some? {
      var (h, n) := Header(input).value;
      if |input| >= h + n {
        assert |input[h..h + n]| == n;
      }
    }
  }

  // A raw uncompressed SEC1 point starts with 0x04 and is therefore read as DER: what comes out
  // has at most 63 bytes, so it is neither a 65-byte point nor the input.
  lemma RawUncompressedPointLost(input: seq<byte>)
    requires |input| == 65 && input[0] == 4
    ensures DecodeLenient(input) != Ok(input)
    ensures DecodeLenient(input).Ok? ==> |DecodeLenient(input).value| <= 63
  {
    DecodeIdentity(input);
  }
}
