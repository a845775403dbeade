// Partially signed Bitcoin transactions, as far as signing reads and writes them.
module PsbtModel {
  import opened Results
  import opened Bip32
  import opened Policy
  import opened TokenModel
  import Ecdsa

  type Point = seq<byte>
  type XOnly = seq<byte>
  type LeafHash = seq<byte>

  datatype PubKey = PubKey(compressed: bool, inner: Point)
  datatype TapKey = TapKey(xonly: XOnly, leaf: LeafHash)
  datatype EcdsaSig = EcdsaSig(signature: Ecdsa.Signature, sighashType: u32)
  datatype TapSig = TapSig(signature: seq<byte>, sighashType: u32)

  // Entries of the two origin maps, listed in the order the maps iterate.
  datatype KeyOrigin<K> = KeyOrigin(pk: K, fingerprint: nat, path: Path)
  datatype TapOrigin = TapOrigin(xonly: XOnly, leaves: seq<LeafHash>, fingerprint: nat, path: Path)

  // The part of an input signing may read. `rest` stands for the fields it ignores.
  datatype InputFacts = InputFacts(
    tapInternalKey: Option<XOnly>,
    tapScripts: map<seq<byte>, Script>,
    origins: seq<KeyOrigin<Point>>,
    tapOrigins: seq<TapOrigin>,
    sighashType: Option<u32>,
    witnessScript: Option<Script>,
    witnessUtxo: Option<TxOut>,
    rest: seq<byte>)

  // The two signature maps are the only part signing writes.
  datatype PsbtInput = PsbtInput(
    facts: InputFacts,
    partialSigs: map<PubKey, EcdsaSig>,
    tapScriptSigs: map<TapKey, TapSig>)

  datatype Psbt = Psbt(tx: UnsignedTx, inputs: seq<PsbtInput>)

  // The sighash algorithms and the decoding of sighash types.
  datatype Library = Library(
    ecdsaType: u32 -> Option<u32>,
    tapType: u32 -> Option<u32>,
    p2wsh: (UnsignedTx, nat, Script, u64, u32) -> Option<Message>,
    tapscript: (UnsignedTx, nat, seq<TxOut>, LeafHash, u32) -> Option<Message>)

  const SIGHASH_ALL: u32 := 1
  const TAP_DEFAULT: u32 := 0

  // What one signing pass adds to one input.
  datatype InputSigs = InputSigs(ecdsa: map<PubKey, EcdsaSig>, tap: map<TapKey, TapSig>)

  const NOTHING := InputSigs(map[], map[])

  function AddSigs(input: PsbtInput, s: InputSigs): PsbtInput {
    input.(partialSigs := input.partialSigs + s.ecdsa, tapScriptSigs := input.tapScriptSigs + s.tap)
  }

  function AddAll(inputs: seq<PsbtInput>, adds: seq<InputSigs>): (r: seq<PsbtInput>)
    requires |adds| == |inputs|
    ensures |r| == |inputs| && forall i :: 0 <= i < |r| ==> r[i] == AddSigs(inputs[i], adds[i])
  {
    seq(|inputs|, i requires 0 <= i < |inputs| => AddSigs(inputs[i], adds[i]))
  }

  function Blank(n: nat): (r: seq<InputSigs>)
    ensures |r| == n && forall i :: 0 <= i < n ==> r[i] == NOTHING
  {
    seq(n, _ => NOTHING)
  }

  function Facts(inputs: seq<PsbtInput>): (r: seq<InputFacts>)
    ensures |r| == |inputs| && forall i :: 0 <= i < |r| ==> r[i] == inputs[i].facts
  {
    seq(|inputs|, i requires 0 <= i < |inputs| => inputs[i].facts)
  }

  predicate IsTaproot(f: InputFacts) {
    f.tapInternalKey.Some? || f.tapScripts != map[]
  }

  // The first origin with our fingerprint.
  function FindOrigin<K>(origins: seq<KeyOrigin<K>>, fingerprint: nat): (o: Option<KeyOrigin<K>>)
    ensures o.Some? ==> o.value in origins && o.value.fingerprint == fingerprint
  {
    if origins == [] then None
    else if origins[0].fingerprint == fingerprint then Some(origins[0])
    else FindOrigin(origins[1..], fingerprint)
  }

  function FindTapOrigin(origins: seq<TapOrigin>, fingerprint: nat): (o: Option<TapOrigin>)
    ensures o.Some? ==> o.value in origins && o.value.fingerprint == fingerprint
  {
    if origins == [] then None
    else if origins[0].fingerprint == fingerprint then Some(origins[0])
    else FindTapOrigin(origins[1..], fingerprint)
  }

  // The search covers the whole map and stops at the first match.
  lemma {:induction false} FirstOrigin<K>(origins: seq<KeyOrigin<K>>, fingerprint: nat)
    ensures var o := FindOrigin(origins, fingerprint);
            && (o.Some? <==> exists x :: x in origins && x.fingerprint == fingerprint)
            && (o.Some? ==> exists k :: 0 <= k < |origins| && origins[k] == o.value
                                        && forall j :: 0 <= j < k ==> origins[j].fingerprint != fingerprint)
  {
    if origins != [] {
      var head, rest := origins[0], origins[1..];
      assert origins == [head] + rest;
      if head.fingerprint != fingerprint {
        FirstOrigin(rest, fingerprint);
        var o := FindOrigin(rest, fingerprint);
        if o.Some? {
          var k :| 0 <= k < |rest| && rest[k] == o.value
                   && forall j :: 0 <= j < k ==> rest[j].fingerprint != fingerprint;
          assert origins[k + 1] == o.value;
        }
      }
    }
  }

  lemma {:induction false} FirstTapOrigin(origins: seq<TapOrigin>, fingerprint: nat)
    ensures var o := FindTapOrigin(origins, fingerprint);
            && (o.Some? <==> exists x :: x in origins && x.fingerprint == fingerprint)
            && (o.Some? ==> exists k :: 0 <= k < |origins| && origins[k] == o.value
                                        && forall j :: 0 <= j < k ==> origins[j].fingerprint != fingerprint)
  {
    if origins != [] {
      var head, rest := origins[0], origins[1..];
      assert origins == [head] + rest;
      if head.fingerprint != fingerprint {
        FirstTapOrigin(rest, fingerprint);
        var o := FindTapOrigin(rest, fingerprint);
        if o.Some? {
          var k :| 0 <= k < |rest| && rest[k] == o.value
                   && forall j :: 0 <= j < k ==> rest[j].fingerprint != fingerprint;
          assert origins[k + 1] == o.value;
        }
      }
    }
  }

  // Every prevout, or the first input that lacks one.
  function Prevouts(facts: seq<InputFacts>, from: nat): (r: Result<seq<TxOut>>)
    requires from <= |facts|
    decreases |facts| - from
  {
    if from == |facts| then Ok([])
    else if facts[from].witnessUtxo.None? then Err(MissingWitnessUtxo(from))
    else
      var rest := Prevouts(facts, from + 1);
      if rest.Err? then rest else Ok([facts[from].witnessUtxo.value] + rest.value)
  }

  // The sighash type a signature of the input is made with: the stored one if it decodes, SIGHASH_ALL
  // for ECDSA and SIGHASH_DEFAULT for Schnorr if none is stored.
  ghost function EcdsaTypeOf(lib: Library, f: InputFacts): Option<u32> {
    if f.sighashType.None? then Some(1) else lib.ecdsaType(f.sighashType.value)
  }

  ghost function TapTypeOf(lib: Library, f: InputFacts): Option<u32> {
    if f.sighashType.None? then Some(0) else lib.tapType(f.sighashType.value)
  }

  ghost predicate AllSpent(facts: seq<InputFacts>) {
    forall j :: 0 <= j < |facts| ==> facts[j].witnessUtxo.Some?
  }

  // The outputs the inputs spend, each in its input's place.
  ghost function SpentOutputs(facts: seq<InputFacts>): (r: seq<TxOut>)
    requires AllSpent(facts)
    ensures |r| == |facts| && forall j :: 0 <= j < |facts| ==> facts[j].witnessUtxo == Some(r[j])
  {
    seq(|facts|, j requires 0 <= j < |facts| => facts[j].witnessUtxo.value)
  }

  // The prevouts are those outputs; without one of them, the first missing is named.
  lemma PrevoutsMeaning(facts: seq<InputFacts>)
    ensures Prevouts(facts, 0).Ok? <==> AllSpent(facts)
    ensures AllSpent(facts) ==> Prevouts(facts, 0).value == SpentOutputs(facts)
    ensures forall k :: 0 <= k < |facts| && facts[k].witnessUtxo.None? && AllSpent(facts[..k]) ==>
              Prevouts(facts, 0) == Err(MissingWitnessUtxo(k))
  {
    if AllSpent(facts) {
      PrevoutsFrom(facts, 0);
    } else {
      forall k | 0 <= k < |facts| && facts[k].witnessUtxo.None? && AllSpent(facts[..k])
        ensures Prevouts(facts, 0) == Err(MissingWitnessUtxo(k))
      {
        FirstMissing(facts, 0, k);
      }
      var k := FirstUnspent(facts);
      FirstMissing(facts, 0, k);
    }
  }

  lemma {:induction false} PrevoutsFrom(facts: seq<InputFacts>, from: nat)
    requires AllSpent(facts) && from <= |facts|
    ensures Prevouts(facts, from) == Ok(SpentOutputs(facts)[from..])
    decreases |facts| - from
  {
    var all := SpentOutputs(facts);
    if from < |facts| {
      PrevoutsFrom(facts, from + 1);
      assert all[from..] == [all[from]] + all[from + 1..];
    } else {
      assert all[from..] == [];
    }
  }

  lemma {:induction false} FirstMissing(facts: seq<InputFacts>, from: nat, k: nat)
    requires from <= k < |facts| && facts[k].witnessUtxo.None? && AllSpent(facts[..k])
    ensures Prevouts(facts, from) == Err(MissingWitnessUtxo(k))
    decreases k - from
  {
    if from < k {
      assert facts[..k][from] == facts[from];
      FirstMissing(facts, from + 1, k);
    }
  }

  lemma {:induction false} FirstUnspent(facts: seq<InputFacts>) returns (k: nat)
    requires !AllSpent(facts)
    ensures k < |facts| && facts[k].witnessUtxo.None? && AllSpent(facts[..k])
  {
    var init := facts[..|facts| - 1];
    if AllSpent(init) {
      k := |facts| - 1;
    } else {
      k := FirstUnspent(init);
      assert facts[..k] == init[..k];
    }
  }

  // The document the caller passes to be signed in place.
  class PsbtDocument {
    const tx: UnsignedTx
    var inputs: seq<PsbtInput>

    constructor (p: Psbt)
      ensures Value() == p
    {
      tx, inputs := p.tx, p.inputs;
    }

    function Value(): Psbt
      reads this
    {
      Psbt(tx, inputs)
    }
  }
}
