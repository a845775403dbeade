// The base64 encoder of the test RPC client (section 4 of RFC 4648).
module Base64 {
  import opened Results

  const UPPER := "ABCDEFGHIJKLMNOPQRSTUVWXYZ"
  const LOWER := "abcdefghijklmnopqrstuvwxyz"
  const NUMERALS := "0123456789"
  const ALPHABET := UPPER + LOWER + NUMERALS + "+/"

  type sextet = x: int | 0 <= x < 64

  function Symbol(v: sextet): char {
    ALPHABET[v]
  }

  predicate IsSymbol(c: char) {
    'A' <= c <= 'Z' || 'a' <= c <= 'z' || '0' <= c <= '9' || c == '+' || c == '/'
  }

  function SymbolValue(c: char): (v: sextet)
    requires IsSymbol(c)
  {
    if 'A' <= c <= 'Z' then c as int - 'A' as int
    else if 'a' <= c <= 'z' then c as int - 'a' as int + 26
    else if '0' <= c <= '9' then c as int - '0' as int + 52
    else if c == '+' then 62
    else 63
  }

  lemma SymbolRoundTrip(v: sextet)
    ensures IsSymbol(Symbol(v)) && SymbolValue(Symbol(v)) == v && Symbol(v) != '='
  {
    if v < 26 {
      Uppers(v);
    } else if v < 52 {
      Lowers(v - 26);
      assert ALPHABET[v] == LOWER[v - 26];
    } else if v < 62 {
      Numerals(v - 52);
      assert ALPHABET[v] == NUMERALS[v - 52];
    }
  }

  lemma Uppers(k: nat)
    requires k < 26
    ensures UPPER[k] as int == 'A' as int + k
  {
  }

  lemma Lowers(k: nat)
    requires k < 26
    ensures LOWER[k] as int == 'a' as int + k
  {
  }

  lemma Numerals(k: nat)
    requires k < 10
    ensures NUMERALS[k] as int == '0' as int + k
  {
  }

  lemma SymbolOfValue(c: char)
    requires IsSymbol(c)
    ensures Symbol(SymbolValue(c)) == c
  {
  }

  // The four sextets of three bytes, cut out of their 24-bit number.
  datatype Quad = Quad(a: sextet, b: sextet, c: sextet, d: sextet)

  function Cut(b0: byte, b1: byte, b2: byte): Quad {
    var n := b0 as int * 0x1_0000 + b1 as int * 0x100 + b2 as int;
    Quad(n / 0x4_0000, n / 0x1000 % 64, n / 64 % 64, n % 64)
  }

  function Symbols(q: Quad, n: nat): (s: string)
    ensures |s| == 4
  {
    [Symbol(q.a), Symbol(q.b), if n > 1 then Symbol(q.c) else '=', if n > 2 then Symbol(q.d) else '=']
  }

  // A byte of a chunk, zero where the chunk is short.
  function ByteAt(chunk: seq<byte>, i: nat): byte {
    if i < |chunk| then chunk[i] else 0
  }

  function EncodedChunk(chunk: seq<byte>): (s: string)
    requires 1 <= |chunk| <= 3
    ensures |s| == 4
  {
    Symbols(Cut(chunk[0], ByteAt(chunk, 1), ByteAt(chunk, 2)), |chunk|)
  }

  function Encoded(input: seq<byte>): string {
    if input == [] then ""
    else if |input| <= 3 then EncodedChunk(input)
    else EncodedChunk(input[..3]) + Encoded(input[3..])
  }

  method Encode(input: seq<byte>) returns (out: string)
    ensures out == Encoded(input)
  {
    out := "";
    var i := 0;
    while i < |input|
      invariant 0 <= i <= |input|
      invariant out + Encoded(input[i..]) == Encoded(input)
    {
      var end := if i + 3 <= |input| then i + 3 else |input|;
      OneTurn(out, input, i, end);
      out := PushChunk(out, input[i..end]);
      i := end;
    }
  }

  // The body of the loop over chunks.
  method PushChunk(before: string, chunk: seq<byte>) returns (out: string)
    requires 1 <= |chunk| <= 3
    ensures out == before + EncodedChunk(chunk)
  {
    var b0 := chunk[0];
    var b1 := if |chunk| > 1 then chunk[1] else 0;
    var b2 := if |chunk| > 2 then chunk[2] else 0;
    var q := CutChunk(b0, b1, b2);
    out := PushSymbols(before, q, |chunk|);
  }

  method CutChunk(b0: byte, b1: byte, b2: byte) returns (q: Quad)
    ensures q == Cut(b0, b1, b2)
  {
    var n: int := b0 as int * 0x1_0000 + b1 as int * 0x100 + b2 as int;
    q := Quad(n / 0x4_0000, n / 0x1000 % 64, n / 64 % 64, n % 64);
  }

  method PushSymbols(before: string, q: Quad, n: nat) returns (out: string)
    ensures out == before + Symbols(q, n)
  {
    out := before + [Symbol(q.a)];
    out := out + [Symbol(q.b)];
    if n > 1 {
      out := out + [Symbol(q.c)];
    } else {
      out := out + ['='];
    }
    if n > 2 {
      out := out + [Symbol(q.d)];
    } else {
      out := out + ['='];
    }
  }

  lemma OneTurn(out: string, input: seq<byte>, i: nat, end: nat)
    requires i < |input| && end == if i + 3 <= |input| then i + 3 else |input|
    ensures out + Encoded(input[i..]) == out + EncodedChunk(input[i..end]) + Encoded(input[end..])
  {
    NextChunk(input[i..], input[i..end], input[end..]);
    var a, b := EncodedChunk(input[i..end]), Encoded(input[end..]);
    assert out + (a + b) == out + a + b;
  }

  lemma NextChunk(rest: seq<byte>, chunk: seq<byte>, tail: seq<byte>)
    requires 1 <= |chunk| <= 3 && rest == chunk + tail && (tail != [] ==> |chunk| == 3)
    ensures Encoded(rest) == EncodedChunk(chunk) + Encoded(tail)
  {
    if tail == [] {
      assert rest == chunk;
    } else {
      assert rest[..3] == chunk && rest[3..] == tail;
    }
  }

  // ------------------------------------------------------------------------------------------
  // A strict decoder
  // ------------------------------------------------------------------------------------------

  // The sextets of a group of four symbols, and how many bytes it stands for. Padding may only
  // stand at the end.
  datatype Group = Group(q: Quad, n: nat)

  function ParseGroup(g: string): Option<Group>
    requires |g| == 4
  {
    if !IsSymbol(g[0]) || !IsSymbol(g[1]) then None
    else
      var a, b := SymbolValue(g[0]), SymbolValue(g[1]);
      if g[2] == '=' && g[3] == '=' then Some(Group(Quad(a, b, 0, 0), 1))
      else if !IsSymbol(g[2]) then None
      else if g[3] == '=' then Some(Group(Quad(a, b, SymbolValue(g[2]), 0), 2))
      else if !IsSymbol(g[3]) then None
      else Some(Group(Quad(a, b, SymbolValue(g[2]), SymbolValue(g[3])), 3))
  }

  function Octets(q: Quad): (byte, byte, byte) {
    (q.a * 4 + q.b / 16, q.b % 16 * 16 + q.c / 4, q.c % 4 * 64 + q.d)
  }

  // The bits that padding leaves unused must be zero.
  function DecodeGroup(g: string): Option<seq<byte>>
    requires |g| == 4
  {
    match ParseGroup(g)
    case None => None
    case Some(Group(q, n)) =>
      var (x, y, z) := Octets(q);
      if n == 3 then Some([x, y, z])
      else if z != 0 then None
      else if n == 2 then Some([x, y])
      else if y != 0 then None
      else Some([x])
  }

  // Only the last group may be short.
  function Decode(s: string): Option<seq<byte>> {
    if s == "" then Some([])
    else if |s| < 4 then None
    else
      var g := DecodeGroup(s[..4]);
      if g.None? then None
      else if |s| == 4 then g
      else if |g.value| < 3 then None
      else
        var rest := Decode(s[4..]);
        if rest.None? then None else Some(g.value + rest.value)
  }

  lemma CutParts(b0: byte, b1: byte, b2: byte)
    ensures Cut(b0, b1, b2) == Quad(b0 / 4, b0 % 4 * 16 + b1 / 16, b1 % 16 * 4 + b2 / 64, b2 % 64)
  {
    Sextets(b0 / 4, b0 % 4, b1 / 16, b1 % 16, b2 / 64, b2 % 64);
  }

  lemma PartsOctets(b0: byte, b1: byte, b2: byte)
    ensures var b, c := b0 % 4 * 16 + b1 / 16, b1 % 16 * 4 + b2 / 64;
            && b0 / 4 * 4 + b / 16 == b0 && b % 16 * 16 + c / 4 == b1 && c % 4 * 64 + b2 % 64 == b2
  {
  }

  lemma CutOctets(b0: byte, b1: byte, b2: byte, q: Quad)
    requires q == Cut(b0, b1, b2)
    ensures Octets(q) == (b0, b1, b2) && (b2 == 0 ==> q.d == 0) && (b1 == 0 && b2 == 0 ==> q.c == 0)
  {
    CutParts(b0, b1, b2);
    PartsOctets(b0, b1, b2);
  }

  lemma OctetsCut(q: Quad)
    ensures var (x, y, z) := Octets(q);
            Cut(x, y, z) == q
  {
    Sextets(q.a, q.b / 16, q.b % 16, q.c / 4, q.c % 4, q.d);
  }

  lemma Sextets(q0: nat, r0: nat, q1: nat, r1: nat, q2: nat, r2: nat)
    requires q0 < 64 && r0 < 4 && q1 < 16 && r1 < 16 && q2 < 4 && r2 < 64
    ensures var n := (q0 * 4 + r0) * 0x1_0000 + (q1 * 16 + r1) * 0x100 + (q2 * 64 + r2);
            && n / 0x4_0000 == q0 && n / 0x1000 % 64 == r0 * 16 + q1
            && n / 64 % 64 == r1 * 4 + q2 && n % 64 == r2
  {
    var n := (q0 * 4 + r0) * 0x1_0000 + (q1 * 16 + r1) * 0x100 + (q2 * 64 + r2);
    assert n / 0x1000 == q0 * 64 + (r0 * 16 + q1);
    assert n / 64 == (q0 * 4096 + r0 * 1024 + q1 * 64) + (r1 * 4 + q2);
  }

  lemma ParseSymbols(q: Quad, n: nat)
    requires 1 <= n <= 3 && (n < 3 ==> q.d == 0) && (n < 2 ==> q.c == 0)
    ensures ParseGroup(Symbols(q, n)) == Some(Group(q, n))
  {
    SymbolRoundTrip(q.a);
    SymbolRoundTrip(q.b);
    SymbolRoundTrip(q.c);
    SymbolRoundTrip(q.d);
  }

  lemma SymbolsParsed(g: string)
    requires |g| == 4 && ParseGroup(g).Some?
    ensures var p := ParseGroup(g).value;
            1 <= p.n <= 3 && Symbols(p.q, p.n) == g && (p.n < 3 ==> p.q.d == 0) && (p.n < 2 ==> p.q.c == 0)
  {
    SymbolOfValue(g[0]);
    SymbolOfValue(g[1]);
    if g[2] != '=' {
      SymbolOfValue(g[2]);
    }
    if g[3] != '=' {
      SymbolOfValue(g[3]);
    }
  }

  lemma GroupRoundTrip(chunk: seq<byte>)
    requires 1 <= |chunk| <= 3
    ensures DecodeGroup(EncodedChunk(chunk)) == Some(chunk)
  {
    var b1, b2 := ByteAt(chunk, 1), ByteAt(chunk, 2);
    var q := Cut(chunk[0], b1, b2);
    CutOctets(chunk[0], b1, b2, q);
    ParseSymbols(q, |chunk|);
    DecodeParsed(EncodedChunk(chunk), Group(q, |chunk|), chunk);
  }

  lemma DecodeParsed(g: string, p: Group, chunk: seq<byte>)
    requires |g| == 4 && ParseGroup(g) == Some(p) && 1 <= |chunk| <= 3 && p.n == |chunk|
    requires Octets(p.q) == (chunk[0], ByteAt(chunk, 1), ByteAt(chunk, 2))
    ensures DecodeGroup(g) == Some(chunk)
  {
    if |chunk| == 1 {
      assert chunk == [chunk[0]];
    } else if |chunk| == 2 {
      assert chunk == [chunk[0], chunk[1]];
    } else {
      assert chunk == [chunk[0], chunk[1], chunk[2]];
    }
  }

  lemma GroupDecoded(g: string)
    requires |g| == 4 && DecodeGroup(g).Some?
    ensures 1 <= |DecodeGroup(g).value| <= 3 && EncodedChunk(DecodeGroup(g).value) == g
  {
    SymbolsParsed(g);
    OctetsCut(ParseGroup(g).value.q);
  }

  // The decoder recovers every input, so no two inputs share an encoding.
  lemma {:induction false} DecodeEncoded(input: seq<byte>)
    ensures Decode(Encoded(input)) == Some(input)
    decreases |input|
  {
    if 0 < |input| <= 3 {
      GroupRoundTrip(input);
      DecodeOne(EncodedChunk(input), input);
    } else if |input| > 3 {
      GroupRoundTrip(input[..3]);
      DecodeEncoded(input[3..]);
      NotEmpty(input[3..]);
      DecodeMore(EncodedChunk(input[..3]), input[..3], Encoded(input[3..]), input[3..]);
      assert input == input[..3] + input[3..];
    }
  }

  lemma NotEmpty(input: seq<byte>)
    requires input != []
    ensures Encoded(input) != ""
  {
  }

  lemma DecodeOne(head: string, chunk: seq<byte>)
    requires |head| == 4 && DecodeGroup(head) == Some(chunk)
    ensures Decode(head) == Some(chunk)
  {
    assert head[..4] == head;
  }

  lemma DecodeMore(head: string, chunk: seq<byte>, tail: string, rest: seq<byte>)
    requires |head| == 4 && |chunk| == 3 && tail != "" && DecodeGroup(head) == Some(chunk) && Decode(tail) == Some(rest)
    ensures Decode(head + tail) == Some(chunk + rest)
  {
    assert (head + tail)[..4] == head && (head + tail)[4..] == tail;
  }

  // And whatever the strict decoder accepts is what the encoder writes.
  lemma {:induction false} EncodeDecoded(s: string)
    requires Decode(s).Some?
    ensures Encoded(Decode(s).value) == s
    decreases |s|
  {
    if s != "" {
      GroupDecoded(s[..4]);
      assert s == s[..4] + s[4..];
      if |s| > 4 {
        EncodeDecoded(s[4..]);
        NextChunk(Decode(s).value, DecodeGroup(s[..4]).value, Decode(s[4..]).value);
      } else {
        assert s[..4] == s;
      }
    }
  }

  // Padding symbols at the end of an encoding of n bytes.
  function Padding(n: nat): nat {
    (3 - n % 3) % 3
  }

  // Four symbols for every chunk of three bytes begun, padding at the very end only.
  ghost predicate Shaped(s: string, n: nat) {
    && |s| == (n + 2) / 3 * 4 && Padding(n) <= |s|
    && (forall k :: 0 <= k < |s| - Padding(n) ==> IsSymbol(s[k]))
    && (forall k :: |s| - Padding(n) <= k < |s| ==> s[k] == '=')
  }

  lemma {:induction false} EncodedShape(input: seq<byte>)
    ensures Shaped(Encoded(input), |input|)
    decreases |input|
  {
    if 0 < |input| <= 3 {
      LastShape(input);
    } else if |input| > 3 {
      EncodedShape(input[3..]);
      JoinShapes(input[..3], Encoded(input[3..]), |input| - 3, |input|);
    }
  }

  lemma LastShape(chunk: seq<byte>)
    requires 1 <= |chunk| <= 3
    ensures Shaped(EncodedChunk(chunk), |chunk|)
  {
    ChunkShape(chunk);
    assert Padding(|chunk|) == 3 - |chunk|;
  }

  lemma JoinShapes(chunk: seq<byte>, t: string, n: nat, all: nat)
    requires |chunk| == 3 && n > 0 && Shaped(t, n) && all == n + 3
    ensures Shaped(EncodedChunk(chunk) + t, all)
  {
    ThreeMore(n);
    ChunkShape(chunk);
    var head := EncodedChunk(chunk);
    assert forall k :: 0 <= k < 4 ==> IsSymbol(head[k]);
  }

  lemma ThreeMore(n: nat)
    ensures Padding(n + 3) == Padding(n) && (n + 5) / 3 * 4 == (n + 2) / 3 * 4 + 4
  {
  }

  lemma ChunkShape(chunk: seq<byte>)
    requires 1 <= |chunk| <= 3
    ensures forall k :: 0 <= k <= |chunk| ==> IsSymbol(EncodedChunk(chunk)[k])
    ensures forall k :: |chunk| < k < 4 ==> EncodedChunk(chunk)[k] == '='
  {
    SymbolsShape(Cut(chunk[0], ByteAt(chunk, 1), ByteAt(chunk, 2)), |chunk|);
  }

  lemma SymbolsShape(q: Quad, n: nat)
    requires 1 <= n <= 3
    ensures forall k :: 0 <= k <= n ==> IsSymbol(Symbols(q, n)[k])
    ensures forall k :: n < k < 4 ==> Symbols(q, n)[k] == '='
  {
    SymbolRoundTrip(q.a);
    SymbolRoundTrip(q.b);
    SymbolRoundTrip(q.c);
    SymbolRoundTrip(q.d);
  }
}
