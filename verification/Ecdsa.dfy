// ECDSA signatures as the token returns them, and the low-S rule (BIP-146).
module Ecdsa {
  import opened Results

  // Order of the secp256k1 group.
  const ORDER: nat := 0xFFFFFFFF_FFFFFFFF_FFFFFFFF_FFFFFFFE_BAAEDCE6_AF48A03B_BFD25E8C_D0364141

  // A parsed signature: both scalars are reduced.
  datatype Signature = Signature(r: nat, s: nat)

  ghost predicate Reduced(g: Signature) {
    g.r < ORDER && g.s < ORDER
  }

  predicate LowS(g: Signature) {
    g.s <= ORDER / 2
  }

  function NormalizeS(g: Signature): Signature
    requires g.s < ORDER
  {
    if LowS(g) then g else Signature(g.r, ORDER - g.s)
  }

  // Value of a big-endian byte string.
  function BigEndian(b: seq<byte>): nat {
    if b == [] then 0 else BigEndian(b[..|b| - 1]) * 0x100 + b[|b| - 1]
  }

  function Power256(n: nat): nat {
    if n == 0 then 1 else 0x100 * Power256(n - 1)
  }

  // Each byte weighs 256 times the one after it, and the last one counts as it is.
  lemma {:induction false} BigEndianWeights(a: seq<byte>, b: seq<byte>)
    ensures BigEndian(a + b) == BigEndian(a) * Power256(|b|) + BigEndian(b)
    ensures |b| == 1 ==> BigEndian(b) == b[0]
    decreases |b|
  {
    assert |b| == 1 ==> b[..0] == [];
    if b == [] {
      assert a + b == a;
    } else {
      var init, last := b[..|b| - 1], b[|b| - 1];
      BigEndianWeights(a, init);
      assert (a + b)[..|a + b| - 1] == a + init;
      Shift(BigEndian(a), Power256(|init|), BigEndian(init), last);
    }
  }

  lemma Shift(x: nat, w: nat, y: nat, z: nat)
    ensures (x * w + y) * 0x100 + z == x * (0x100 * w) + (y * 0x100 + z)
  {
  }

  // `Signature::from_compact`: the two halves must be reduced scalars.
  function FromCompact(raw: seq<byte>): (g: Option<Signature>)
    requires |raw| == 64
    ensures g.Some? ==> Reduced(g.value)
  {
    var r, s := BigEndian(raw[..32]), BigEndian(raw[32..]);
    if r < ORDER && s < ORDER then Some(Signature(r, s)) else None
  }

  // What `sign_with_low_s` makes of the bytes the token returned. An accepted signature keeps r,
  // has s or n - s, and obeys the rule. Normalising it again changes nothing, so the second
  // normalisation in the signing loops is the identity.
  function FromToken(raw: seq<byte>): (g: Result<Signature>)
    ensures g.Ok? <==> |raw| == 64 && BigEndian(raw[..32]) < ORDER && BigEndian(raw[32..]) < ORDER
    ensures g.Ok? ==>
              && g.value.r == BigEndian(raw[..32])
              && (g.value.s == BigEndian(raw[32..])
                  || g.value.s + BigEndian(raw[32..])
                     == 0xFFFFFFFF_FFFFFFFF_FFFFFFFF_FFFFFFFE_BAAEDCE6_AF48A03B_BFD25E8C_D0364141)
              && LowS(g.value) && NormalizeS(g.value) == g.value
              && g.value.s <= 0x7FFFFFFF_FFFFFFFF_FFFFFFFF_FFFFFFFF_5D576E73_57A4501D_DFE92F46_681B20A0
    ensures g.Err? ==> g.error == if |raw| != 64 then BadSignatureLength else BadCompactSignature
  {
    if |raw| != 64 then Err(BadSignatureLength)
    else
      match FromCompact(raw)
      case None => Err(BadCompactSignature)
      case Some(g) => Ok(NormalizeS(g))
  }

  // The rule removes malleability: the two forms of one signature normalise to the same one,
  // and no others do.
  lemma NormalizeIsCanonical(a: Signature, b: Signature)
    requires a.s < ORDER && b.s < ORDER
    ensures NormalizeS(a) == NormalizeS(b) <==> a.r == b.r && (a.s == b.s || a.s + b.s == ORDER)
  {
    assert ORDER == 2 * (ORDER / 2) + 1;
  }
}
