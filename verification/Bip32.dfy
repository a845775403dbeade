// BIP-32 child numbers, paths, and the four-byte word that carries a child number to the token.
module Bip32 {
  import opened Results

  // A child number as the source declares it: the index field is any 32-bit word.
  datatype ChildNumber = Normal(index: u32) | Hardened(index: u32)

  const HIGH_BIT: u32 := 0x8000_0000

  // The range BIP-32 gives to an index. Paths parsed from text or from a PSBT hold only these.
  type Segment = c: ChildNumber | c.index < HIGH_BIT witness Normal(0)
  type Path = seq<Segment>

  // A private key is named by the master it descends from and the path taken.
  datatype Key = Key(master: nat, path: Path)

  function Descend(k: Key, p: Path): Key {
    Key(k.master, k.path + p)
  }

  // `index | 0x8000_0000` on a 32-bit word.
  function SetHighBit(w: u32): u32 {
    if w < HIGH_BIT then w + HIGH_BIT else w
  }

  function ToWord(c: ChildNumber): u32 {
    match c
    case Normal(i) => i
    case Hardened(i) => SetHighBit(i)
  }

  // The mask `& 0x8000_0000` tests the top bit, the mask `& 0x7FFF_FFFF` clears it.
  function FromWord(w: u32): Segment {
    if w >= HIGH_BIT then Hardened(w - HIGH_BIT) else Normal(w)
  }

  function ToLittleEndian(w: u32): seq<byte> {
    [w % 0x100, w / 0x100 % 0x100, w / 0x1_0000 % 0x100, w / 0x100_0000]
  }

  function FromLittleEndian(b: seq<byte>): u32
    requires |b| == 4
  {
    b[0] + (b[1] as int) * 0x100 + (b[2] as int) * 0x1_0000 + (b[3] as int) * 0x100_0000
  }

  // The mechanism parameter of `derive_child_key`, and what `read_xpub` makes of the attribute.
  function EncodeChild(c: ChildNumber): (b: seq<byte>)
    ensures |b| == 4
  {
    ToLittleEndian(ToWord(c))
  }

  function DecodeChild(b: seq<byte>): Result<Segment> {
    if |b| != 4 then Err(BadField(0, "child index")) else Ok(FromWord(FromLittleEndian(b)))
  }

  lemma LittleEndianInverse(b: seq<byte>)
    requires |b| == 4
    ensures ToLittleEndian(FromLittleEndian(b)) == b
  {
    var w := FromLittleEndian(b);
    assert w % 0x100 == b[0];
    assert w / 0x100 == b[1] + (b[2] as int) * 0x100 + (b[3] as int) * 0x1_0000;
    assert w / 0x1_0000 == b[2] + (b[3] as int) * 0x100;
    assert w / 0x100_0000 == b[3];
  }

  lemma LittleEndianValue(w: u32)
    ensures FromLittleEndian(ToLittleEndian(w)) == w
  {
    var q, r := w / 0x100, w / 0x1_0000;
    assert w == 0x100 * q + w % 0x100;
    assert q == 0x100 * r + q % 0x100;
    assert r == 0x100 * (w / 0x100_0000) + r % 0x100;
  }

  // The word in little-endian order: the index, and the top bit for a hardened segment.
  lemma ChildWordValue(c: Segment)
    ensures var b := EncodeChild(c);
            b[0] as int + b[1] as int * 0x100 + b[2] as int * 0x1_0000 + b[3] as int * 0x100_0000
            == c.index + if c.Hardened? then 0x8000_0000 else 0
  {
    LittleEndianValue(ToWord(c));
  }

  // The round trip holds exactly for the indices BIP-32 allows: a larger one comes back as a
  // different child number, because the top bit is the hardened flag.
  lemma ChildWordRoundTrip(c: ChildNumber)
    ensures DecodeChild(EncodeChild(c)) == Ok(c) <==> c.index < 0x8000_0000
  {
    LittleEndianValue(ToWord(c));
  }

  // Reading is total and injective on four-byte attributes: re-encoding gives the bytes back.
  lemma ChildWordReadBack(b: seq<byte>)
    requires |b| == 4
    ensures DecodeChild(b).Ok? && EncodeChild(DecodeChild(b).value) == b
    ensures forall c: Segment :: EncodeChild(c) == b ==> c == DecodeChild(b).value
  {
    LittleEndianInverse(b);
    forall c: Segment | EncodeChild(c) == b
      ensures c == DecodeChild(b).value
    {
      ChildWordRoundTrip(c);
    }
  }
}
