// What one call of `sign_transaction` guarantees.
module SigningTheorems {
  import opened Results
  import opened Bip32
  import opened Policy
  import opened Labels
  import opened TokenModel
  import opened Store
  import opened SigRate
  import opened Backend
  import opened PsbtModel
  import opened Signer
  import opened SigningEffect

  // ------------------------------------------------------------------------------------------
  // Frames of the calls around the loop
  // ------------------------------------------------------------------------------------------

  lemma LoadPolicyFrame(env: Env, t: TokenState, id: string)
    ensures var l := LoadPolicy(env, t, id);
            l.st.objs == t.objs && l.st.next == t.next && l.st.log == t.log && l.st.ticks >= t.ticks
  {
  }

  lemma FinishCallFrame(env: Env, cfg: Config, policy: HsmPolicy, p: Plan, inputs: seq<PsbtInput>)
    requires Valid(p.st) && Enumerates(env) && |p.adds| == |inputs|
    ensures var c := FinishCall(env, cfg, policy, p, inputs);
            && Valid(c.st) && c.st.log == p.st.log && c.st.ticks >= p.st.ticks
            && Others(c.st.objs, ObjectLabel(cfg.id, SigRateSuffix))
               == Others(p.st.objs, ObjectLabel(cfg.id, SigRateSuffix))
            && c.inputs == AddAll(inputs, p.adds) && (c.res.Ok? ==> p.res.Ok?)
  {
    CheckAndRecordFrame(env, p.st, cfg.id, policy);
  }

  // The policy was read and lets the PSBT through.
  predicate Passes(env: Env, cfg: Config, t: TokenState, tx: UnsignedTx) {
    var l := LoadPolicy(env, t, cfg.id);
    l.res.Ok? && Verdict(l.res.value, tx, cfg.network).Ok?
  }

  function LoopOf(env: Env, lib: Library, cfg: Config, t: TokenState, psbt: Psbt): (p: Plan)
    ensures |p.adds| == |psbt.inputs|
  {
    SignFrom(env, lib, cfg, LoadPolicy(env, t, cfg.id).st, psbt.tx, Facts(psbt.inputs), 0)
  }

  // A call is the gate, then the loop, then the rate check.
  lemma CallShape(env: Env, lib: Library, cfg: Config, t: TokenState, psbt: Psbt)
    ensures var l := LoadPolicy(env, t, cfg.id);
            var c := SignTransaction(env, lib, cfg, t, psbt);
            && (Passes(env, cfg, t, psbt.tx) ==>
                  c == FinishCall(env, cfg, l.res.value, LoopOf(env, lib, cfg, t, psbt), psbt.inputs))
            && (!Passes(env, cfg, t, psbt.tx) ==>
                  c.res.Err? && c.recorded == None && c.st == l.st && c.inputs == psbt.inputs)
  {
  }

  lemma LoopToken(env: Env, lib: Library, cfg: Config, t: TokenState, psbt: Psbt)
    requires Ready(cfg, t)
    ensures var p := LoopOf(env, lib, cfg, t, psbt);
            && Grows(t, p.st)
            && (p.res.Ok? && NoneFails(env, t, p.st) ==>
                  |p.st.objs| == |t.objs| + TotalLeftover(cfg, Facts(psbt.inputs), 0))
  {
    LoadPolicyFrame(env, t, cfg.id);
    SignFromToken(env, lib, cfg, LoadPolicy(env, t, cfg.id).st, psbt.tx, Facts(psbt.inputs), 0);
  }

  // Session keys are not data objects.
  lemma GrowsKeepsRecords(t: TokenState, u: TokenState, name: string)
    requires Grows(t, u)
    ensures Matching(u.objs, Data, name) == Matching(t.objs, Data, name)
    ensures RecordsOf(u.objs, name) == RecordsOf(t.objs, name)
    ensures |Others(u.objs, name)| - |Others(t.objs, name)| == |u.objs| - |t.objs|
  {
    GrowsMatches(t, u, name);
    CountOthers(t.objs, name);
    CountOthers(u.objs, name);
  }

  lemma GrowsMatches(t: TokenState, u: TokenState, name: string)
    requires Grows(t, u)
    ensures Matching(u.objs, Data, name) == Matching(t.objs, Data, name)
    ensures RecordsOf(u.objs, name) == RecordsOf(t.objs, name)
  {
  }

  lemma CountOthers(objs: map<Handle, Object>, name: string)
    ensures |Others(objs, name)| == |objs| - |Matching(objs, Data, name)|
  {
    var m := Matching(objs, Data, name);
    assert m <= objs.Keys;
    assert Others(objs, name).Keys == objs.Keys - m;
    assert |Others(objs, name)| == |Others(objs, name).Keys|;
    assert |objs.Keys - m| == |objs.Keys| - |m|;
  }

  // ------------------------------------------------------------------------------------------
  // The token
  // ------------------------------------------------------------------------------------------

  // Between the states before and after a call, apart from the sig-rate record under `name`:
  // everything survives, everything new is a session key, the log only grew.
  ghost predicate Accounted(t: TokenState, u: TokenState, name: string) {
    && Valid(u) && t.log <= u.log && t.ticks <= u.ticks
    && (forall h :: h in Others(t.objs, name) ==> h in u.objs && u.objs[h] == t.objs[h])
    && (forall h :: h in Others(u.objs, name) && h !in t.objs ==> SessionKey(u.objs[h]))
  }

  lemma GrowsAccounted(t: TokenState, u: TokenState, v: TokenState, name: string)
    requires Grows(t, u) && Valid(v) && v.log == u.log && u.ticks <= v.ticks
    requires Others(v.objs, name) == Others(u.objs, name)
    ensures Accounted(t, v, name)
  {
    GrowsKeepsRecords(t, u, name);
    forall h | h in Others(t.objs, name)
      ensures h in v.objs && v.objs[h] == t.objs[h]
    {
      assert h in Others(u.objs, name);
      assert Others(v.objs, name)[h] == Others(u.objs, name)[h];
    }
    forall h | h in Others(v.objs, name) && h !in t.objs
      ensures SessionKey(v.objs[h])
    {
      assert Others(v.objs, name)[h] == Others(u.objs, name)[h];
    }
  }

  // Signing destroys only what it created: whatever the outcome, every earlier object survives,
  // the sig-rate record aside, and what is new is session keys. The federation key stays usable.
  // A call that succeeds with no refused token call leaves exactly the intermediate keys of the
  // paths it derived, max(0, k - 1) for a relative path of k segments.
  lemma TokenAccounting(env: Env, lib: Library, cfg: Config, t: TokenState, psbt: Psbt)
    requires Ready(cfg, t) && Enumerates(env) && t.objs[cfg.handle].kind != Data
    ensures var c := SignTransaction(env, lib, cfg, t, psbt);
            var name := ObjectLabel(cfg.id, SigRateSuffix);
            && Accounted(t, c.st, name)
            && Ready(cfg, c.st) && FederationKey(cfg, c.st) == FederationKey(cfg, t)
            && (c.res.Ok? && NoneFails(env, t, c.st) ==>
                  |Others(c.st.objs, name)| == |Others(t.objs, name)| + TotalLeftover(cfg, Facts(psbt.inputs), 0))
  {
    var name := ObjectLabel(cfg.id, SigRateSuffix);
    LoadPolicyFrame(env, t, cfg.id);
    CallShape(env, lib, cfg, t, psbt);
    if Passes(env, cfg, t, psbt.tx) {
      var p := LoopOf(env, lib, cfg, t, psbt);
      LoopToken(env, lib, cfg, t, psbt);
      FinishCallFrame(env, cfg, LoadPolicy(env, t, cfg.id).res.value, p, psbt.inputs);
      GrowsKeepsRecords(t, p.st, name);
      GrowsAccounted(t, p.st, SignTransaction(env, lib, cfg, t, psbt).st, name);
    } else {
      GrowsAccounted(t, t, LoadPolicy(env, t, cfg.id).st, name);
    }
    assert cfg.handle in Others(t.objs, name);
  }

  // ------------------------------------------------------------------------------------------
  // The PSBT
  // ------------------------------------------------------------------------------------------

  // The additions of a call: those of the loop if the loop ran, none otherwise.
  function CallAdds(env: Env, lib: Library, cfg: Config, t: TokenState, psbt: Psbt): (adds: seq<InputSigs>)
    ensures |adds| == |psbt.inputs|
  {
    if Passes(env, cfg, t, psbt.tx) then LoopOf(env, lib, cfg, t, psbt).adds else Blank(|psbt.inputs|)
  }

  lemma CallAddsAll(env: Env, lib: Library, cfg: Config, t: TokenState, psbt: Psbt)
    ensures SignTransaction(env, lib, cfg, t, psbt).inputs == AddAll(psbt.inputs, CallAdds(env, lib, cfg, t, psbt))
  {
    CallShape(env, lib, cfg, t, psbt);
    AddBlank(psbt.inputs);
    assert [] + Blank(|psbt.inputs|) == Blank(|psbt.inputs|);
  }

  // A call that succeeds ran the loop, and the loop succeeded.
  lemma CallOkLoopOk(env: Env, lib: Library, cfg: Config, t: TokenState, psbt: Psbt)
    ensures SignTransaction(env, lib, cfg, t, psbt).res.Ok? ==>
              Passes(env, cfg, t, psbt.tx) && LoopOf(env, lib, cfg, t, psbt).res.Ok?
  {
    CallShape(env, lib, cfg, t, psbt);
  }

  lemma LoopSigs(env: Env, lib: Library, cfg: Config, t: TokenState, psbt: Psbt, i: nat)
    requires Ready(cfg, t) && i < |psbt.inputs|
    ensures var p := LoopOf(env, lib, cfg, t, psbt);
            && Sound(env, lib, cfg, FederationKey(cfg, t), psbt.tx, Facts(psbt.inputs), i, p.adds[i])
            && KeysWithin(cfg, psbt.inputs[i].facts, p.adds[i])
            && (p.res.Ok? ==> KeysExactly(cfg, psbt.inputs[i].facts, p.adds[i]))
  {
    LoadPolicyFrame(env, t, cfg.id);
    SignFromSigs(env, lib, cfg, LoadPolicy(env, t, cfg.id).st, psbt.tx, Facts(psbt.inputs), 0, i);
  }

  lemma CallAddsDone(env: Env, lib: Library, cfg: Config, t: TokenState, psbt: Psbt, i: nat)
    requires Ready(cfg, t) && i < |psbt.inputs|
    ensures var s := CallAdds(env, lib, cfg, t, psbt)[i];
            && Sound(env, lib, cfg, FederationKey(cfg, t), psbt.tx, Facts(psbt.inputs), i, s)
            && KeysWithin(cfg, psbt.inputs[i].facts, s)
            && (SignTransaction(env, lib, cfg, t, psbt).res.Ok? ==> KeysExactly(cfg, psbt.inputs[i].facts, s))
  {
    CallOkLoopOk(env, lib, cfg, t, psbt);
    LoopSigs(env, lib, cfg, t, psbt, i);
  }

  // From input a to input b only our own signature entries may differ.
  ghost predicate OnlyOurs(cfg: Config, a: PsbtInput, b: PsbtInput) {
    && b.facts == a.facts
    && a.partialSigs.Keys <= b.partialSigs.Keys <= a.partialSigs.Keys + EcdsaKeys(cfg, a.facts)
    && a.tapScriptSigs.Keys <= b.tapScriptSigs.Keys <= a.tapScriptSigs.Keys + TapKeys(cfg, a.facts)
    && (forall k :: k in a.partialSigs && k !in EcdsaKeys(cfg, a.facts) ==> b.partialSigs[k] == a.partialSigs[k])
    && (forall k :: k in a.tapScriptSigs && k !in TapKeys(cfg, a.facts) ==> b.tapScriptSigs[k] == a.tapScriptSigs[k])
  }

  // Every signature entry of ours on input b is one a call over these facts made, whatever was
  // stored under its key before.
  ghost predicate OursSigned(env: Env, lib: Library, cfg: Config, fed: Key, tx: UnsignedTx, facts: seq<InputFacts>,
                             i: nat, b: PsbtInput)
    requires i < |facts|
  {
    && (forall pk :: pk in EcdsaKeys(cfg, facts[i]) ==>
          pk in b.partialSigs && SoundEcdsa(env, lib, cfg, fed, tx, facts[i], i, pk, b.partialSigs[pk]))
    && (forall tk :: tk in TapKeys(cfg, facts[i]) ==>
          tk in b.tapScriptSigs && SoundTap(env, lib, cfg, fed, tx, facts, i, tk, b.tapScriptSigs[tk]))
  }

  lemma AddedIsSigned(env: Env, lib: Library, cfg: Config, fed: Key, tx: UnsignedTx, facts: seq<InputFacts>, i: nat,
                      a: PsbtInput, s: InputSigs)
    requires i < |facts| && Sound(env, lib, cfg, fed, tx, facts, i, s) && KeysExactly(cfg, facts[i], s)
    ensures OursSigned(env, lib, cfg, fed, tx, facts, i, AddSigs(a, s))
  {
  }

  // An input without taproot data got the public key of an origin of ours if it has one, and
  // nothing else; one with taproot data the leaves of an origin of ours, and nothing else.
  ghost predicate Filled(cfg: Config, a: PsbtInput, b: PsbtInput) {
    var f := a.facts;
    if f.tapInternalKey.None? && f.tapScripts == map[] then
      && b.tapScriptSigs == a.tapScriptSigs
      && (if exists o :: o in f.origins && o.fingerprint == cfg.fingerprint then
            exists o :: o in f.origins && o.fingerprint == cfg.fingerprint
                        && b.partialSigs.Keys == a.partialSigs.Keys + {PubKey(true, o.pk)}
          else b.partialSigs == a.partialSigs)
    else
      && b.partialSigs == a.partialSigs
      && (if exists o :: o in f.tapOrigins && o.fingerprint == cfg.fingerprint then
            exists o :: o in f.tapOrigins && o.fingerprint == cfg.fingerprint
                        && b.tapScriptSigs.Keys
                           == a.tapScriptSigs.Keys + (set l | l in o.leaves :: TapKey(o.xonly, l))
          else b.tapScriptSigs == a.tapScriptSigs)
  }

  lemma KeysFill(cfg: Config, a: PsbtInput, b: PsbtInput)
    requires OnlyOurs(cfg, a, b)
    requires b.partialSigs.Keys == a.partialSigs.Keys + EcdsaKeys(cfg, a.facts)
    requires b.tapScriptSigs.Keys == a.tapScriptSigs.Keys + TapKeys(cfg, a.facts)
    ensures Filled(cfg, a, b)
  {
    KeysMeaning(cfg, a.facts);
  }

  // Whatever the outcome only our own signature entries change; a call that succeeds fills all
  // of them, replacing what was stored there: one public key on a P2WSH input with our
  // fingerprint, our (x-only key, leaf) pairs on a taproot one, nothing on any other.
  lemma ExactEffect(env: Env, lib: Library, cfg: Config, t: TokenState, psbt: Psbt, i: nat)
    requires Ready(cfg, t) && i < |psbt.inputs|
    ensures var c := SignTransaction(env, lib, cfg, t, psbt);
            var a := psbt.inputs[i];
            && OnlyOurs(cfg, a, c.inputs[i])
            && (c.res.Ok? ==>
                  && c.inputs[i].partialSigs.Keys == a.partialSigs.Keys + EcdsaKeys(cfg, a.facts)
                  && c.inputs[i].tapScriptSigs.Keys == a.tapScriptSigs.Keys + TapKeys(cfg, a.facts)
                  && OursSigned(env, lib, cfg, FederationKey(cfg, t), psbt.tx, Facts(psbt.inputs), i, c.inputs[i]))
    ensures var c := SignTransaction(env, lib, cfg, t, psbt);
            c.res.Ok? ==> Filled(cfg, psbt.inputs[i], c.inputs[i])
  {
    CallAddsAll(env, lib, cfg, t, psbt);
    CallAddsDone(env, lib, cfg, t, psbt, i);
    if SignTransaction(env, lib, cfg, t, psbt).res.Ok? {
      AddedIsSigned(env, lib, cfg, FederationKey(cfg, t), psbt.tx, Facts(psbt.inputs), i, psbt.inputs[i],
                    CallAdds(env, lib, cfg, t, psbt)[i]);
      KeysFill(cfg, psbt.inputs[i], SignTransaction(env, lib, cfg, t, psbt).inputs[i]);
    }
  }

  // Signing again, on any later token and with any outcome of the first call's signatures,
  // changes no key set.
  lemma SignAgain(env: Env, lib: Library, cfg: Config, t: TokenState, psbt: Psbt, env': Env, lib': Library,
                  t': TokenState, i: nat)
    requires Ready(cfg, t) && Ready(cfg, t') && i < |psbt.inputs|
    requires SignTransaction(env, lib, cfg, t, psbt).res.Ok?
    ensures var c := SignTransaction(env, lib, cfg, t, psbt);
            var d := SignTransaction(env', lib', cfg, t', Psbt(psbt.tx, c.inputs));
            && d.inputs[i].partialSigs.Keys == c.inputs[i].partialSigs.Keys
            && d.inputs[i].tapScriptSigs.Keys == c.inputs[i].tapScriptSigs.Keys
  {
    var c := SignTransaction(env, lib, cfg, t, psbt);
    ExactEffect(env, lib, cfg, t, psbt, i);
    OnlyOursChange(env', lib', cfg, t', Psbt(psbt.tx, c.inputs), i);
    KeysStay(cfg, psbt.inputs[i], c.inputs[i], SignTransaction(env', lib', cfg, t', Psbt(psbt.tx, c.inputs)).inputs[i]);
  }

  lemma KeysStay(cfg: Config, a: PsbtInput, b: PsbtInput, d: PsbtInput)
    requires OnlyOurs(cfg, a, b) && OnlyOurs(cfg, b, d)
    requires b.partialSigs.Keys == a.partialSigs.Keys + EcdsaKeys(cfg, a.facts)
    requires b.tapScriptSigs.Keys == a.tapScriptSigs.Keys + TapKeys(cfg, a.facts)
    ensures d.partialSigs.Keys == b.partialSigs.Keys && d.tapScriptSigs.Keys == b.tapScriptSigs.Keys
  {
  }

  lemma OnlyOursChange(env: Env, lib: Library, cfg: Config, t: TokenState, psbt: Psbt, i: nat)
    requires Ready(cfg, t) && i < |psbt.inputs|
    ensures OnlyOurs(cfg, psbt.inputs[i], SignTransaction(env, lib, cfg, t, psbt).inputs[i])
  {
    ExactEffect(env, lib, cfg, t, psbt, i);
  }

  // ------------------------------------------------------------------------------------------
  // Soundness of the signatures
  // ------------------------------------------------------------------------------------------

  // Stripping by length names the right key exactly when the path does start with the
  // federation path: the prefix itself is never compared.
  lemma StrippedPathKey(cfg: Config, master: nat, path: Path)
    requires |cfg.path| <= |path|
    ensures UsedKey(cfg, Key(master, cfg.path), path) == Key(master, path) <==> cfg.path <= path
  {
    var n := |cfg.path|;
    assert path == path[..n] + path[n..];
    if cfg.path + path[n..] == path {
      assert (cfg.path + path[n..])[..n] == cfg.path;
    }
  }

  // The handle is the key at the federation path of `master`, and a by-name Schnorr service
  // finds the keys of the same master.
  ghost predicate DescendsFrom(env: Env, cfg: Config, t: TokenState, master: nat) {
    && Ready(cfg, t) && FederationKey(cfg, t) == Key(master, cfg.path)
    && (env.taproot.ByName? ==> forall p: Path :: env.remote(cfg.id, p) == Key(master, p))
  }

  // A key ceremony builds such a signer, with the fingerprint of the seed's master.
  lemma CeremonyMakesSigner(env: Env, t: TokenState, id: string, path: Path, network: Network, seed: seq<byte>,
                            master: nat)
    requires Valid(t) && DeriveFromSeed(env, t, id, path, seed).res.Ok?
    requires master == env.masterOf(if seed == [] then ZeroSeed() else seed)
    requires env.taproot.ByName? ==> forall p: Path :: env.remote(id, p) == Key(master, p)
    ensures var d := DeriveFromSeed(env, t, id, path, seed);
            var cfg := Config(id, d.res.value.fingerprint, path, network, d.res.value.handle);
            DescendsFrom(env, cfg, d.st, master) && cfg.fingerprint == env.fingerprint(Key(master, []))
  {
    CeremonyEffect(env, t, id, path, seed);
  }

  // Handle and (label, full path) name the same key.
  lemma SchnorrTransportsAgree(env: Env, cfg: Config, t: TokenState, master: nat, path: Path)
    requires DescendsFrom(env, cfg, t, master) && |cfg.path| <= |path| && cfg.path <= path
    ensures var fed := FederationKey(cfg, t);
            UsedTapKey(env, cfg, fed, path) == UsedKey(cfg, fed, path) == Key(master, path)
  {
    StrippedPathKey(cfg, master, path);
  }

  // Under our public key, a signature by the key at the full path of our origin, over the
  // sighash computed with the sighash type stored beside it.
  ghost predicate EcdsaOfMaster(env: Env, lib: Library, cfg: Config, master: nat, tx: UnsignedTx, f: InputFacts, i: nat,
                                pk: PubKey, g: EcdsaSig)
  {
    var o := FindOrigin(f.origins, cfg.fingerprint);
    && o.Some? && pk == PubKey(true, o.value.pk)
    && EcdsaOver(env, lib, tx, f, i, Key(master, o.value.path), g)
  }

  // Every ECDSA signature of the resulting PSBT was there before, or is by the key at the full
  // path of our origin of that input, over the sighash computed from the resulting PSBT. This
  // holds whatever the outcome of the call; after a call that succeeds the entry under our own
  // key is of the second kind, also where another was there before.
  lemma EcdsaSoundness(env: Env, lib: Library, cfg: Config, t: TokenState, psbt: Psbt, master: nat, i: nat, pk: PubKey)
    requires DescendsFrom(env, cfg, t, master) && i < |psbt.inputs|
    requires var o := FindOrigin(psbt.inputs[i].facts.origins, cfg.fingerprint);
             o.Some? ==> cfg.path <= o.value.path
    ensures var a, b := psbt.inputs[i], SignTransaction(env, lib, cfg, t, psbt).inputs[i];
            pk in b.partialSigs ==>
              || (pk in a.partialSigs && a.partialSigs[pk] == b.partialSigs[pk])
              || EcdsaOfMaster(env, lib, cfg, master, psbt.tx, b.facts, i, pk, b.partialSigs[pk])
    ensures var c := SignTransaction(env, lib, cfg, t, psbt);
            var b := c.inputs[i];
            c.res.Ok? && pk in EcdsaKeys(cfg, b.facts) ==>
              pk in b.partialSigs && EcdsaOfMaster(env, lib, cfg, master, psbt.tx, b.facts, i, pk, b.partialSigs[pk])
  {
    CallAddsAll(env, lib, cfg, t, psbt);
    CallAddsDone(env, lib, cfg, t, psbt, i);
    var s := CallAdds(env, lib, cfg, t, psbt)[i];
    if pk in s.ecdsa {
      SoundOfMaster(env, lib, cfg, t, psbt.tx, psbt.inputs[i].facts, master, i, pk, s.ecdsa[pk]);
    }
  }

  lemma SoundOfMaster(env: Env, lib: Library, cfg: Config, t: TokenState, tx: UnsignedTx, f: InputFacts, master: nat,
                      i: nat, pk: PubKey, g: EcdsaSig)
    requires DescendsFrom(env, cfg, t, master) && SoundEcdsa(env, lib, cfg, FederationKey(cfg, t), tx, f, i, pk, g)
    requires var o := FindOrigin(f.origins, cfg.fingerprint);
             o.Some? ==> cfg.path <= o.value.path
    ensures EcdsaOfMaster(env, lib, cfg, master, tx, f, i, pk, g)
  {
    StrippedPathKey(cfg, master, FindOrigin(f.origins, cfg.fingerprint).value.path);
  }

  // Under our x-only key and a leaf of ours, a signature by the key at the full path of our
  // origin, over the leaf's sighash with all prevouts and the sighash type stored beside it.
  ghost predicate SchnorrOfMaster(env: Env, lib: Library, cfg: Config, master: nat, tx: UnsignedTx,
                                  facts: seq<InputFacts>, i: nat, tk: TapKey, g: TapSig)
    requires i < |facts|
  {
    var o := FindTapOrigin(facts[i].tapOrigins, cfg.fingerprint);
    && o.Some? && tk.xonly == o.value.xonly && tk.leaf in o.value.leaves
    && SchnorrOver(env, lib, tx, facts, i, tk.leaf, Key(master, o.value.path), g)
  }

  // The same for Schnorr signatures, for either way the backend names the key.
  lemma SchnorrSoundness(env: Env, lib: Library, cfg: Config, t: TokenState, psbt: Psbt, master: nat, i: nat,
                         tk: TapKey)
    requires DescendsFrom(env, cfg, t, master) && i < |psbt.inputs|
    requires var o := FindTapOrigin(psbt.inputs[i].facts.tapOrigins, cfg.fingerprint);
             o.Some? ==> cfg.path <= o.value.path
    ensures var r := SignTransaction(env, lib, cfg, t, psbt).inputs;
            var a, b := psbt.inputs[i], r[i];
            tk in b.tapScriptSigs ==>
              || (tk in a.tapScriptSigs && a.tapScriptSigs[tk] == b.tapScriptSigs[tk])
              || SchnorrOfMaster(env, lib, cfg, master, psbt.tx, Facts(r), i, tk, b.tapScriptSigs[tk])
    ensures var c := SignTransaction(env, lib, cfg, t, psbt);
            var b := c.inputs[i];
            c.res.Ok? && tk in TapKeys(cfg, b.facts) ==>
              && tk in b.tapScriptSigs
              && SchnorrOfMaster(env, lib, cfg, master, psbt.tx, Facts(c.inputs), i, tk, b.tapScriptSigs[tk])
  {
    CallAddsAll(env, lib, cfg, t, psbt);
    SameFacts(psbt.inputs, CallAdds(env, lib, cfg, t, psbt));
    CallAddsDone(env, lib, cfg, t, psbt, i);
    var s := CallAdds(env, lib, cfg, t, psbt)[i];
    if tk in s.tap {
      SoundTapOfMaster(env, lib, cfg, t, psbt.tx, Facts(psbt.inputs), master, i, tk, s.tap[tk]);
    }
  }

  lemma SoundTapOfMaster(env: Env, lib: Library, cfg: Config, t: TokenState, tx: UnsignedTx, facts: seq<InputFacts>,
                         master: nat, i: nat, tk: TapKey, g: TapSig)
    requires DescendsFrom(env, cfg, t, master) && i < |facts|
    requires SoundTap(env, lib, cfg, FederationKey(cfg, t), tx, facts, i, tk, g)
    requires var o := FindTapOrigin(facts[i].tapOrigins, cfg.fingerprint);
             o.Some? ==> cfg.path <= o.value.path
    ensures SchnorrOfMaster(env, lib, cfg, master, tx, facts, i, tk, g)
  {
    SchnorrTransportsAgree(env, cfg, t, master, FindTapOrigin(facts[i].tapOrigins, cfg.fingerprint).value.path);
  }

  // ------------------------------------------------------------------------------------------
  // The policy gate
  // ------------------------------------------------------------------------------------------

  // A rejected PSBT leaves PSBT, objects and log alone. Conversely, if anything was signed, the
  // policy that was read permits the PSBT, and the policy records are still what they were. With
  // at most one of them the PSBT still passes: a later read is refused or permits it again.
  lemma PolicyGate(env: Env, lib: Library, cfg: Config, t: TokenState, psbt: Psbt)
    requires Ready(cfg, t) && Enumerates(env)
    ensures var l := LoadPolicy(env, t, cfg.id);
            var c := SignTransaction(env, lib, cfg, t, psbt);
            l.res.Err? || !Permits(l.res.value, psbt.tx, cfg.network) ==>
              c.res.Err? && c.inputs == psbt.inputs && c.st.objs == t.objs && c.st.log == t.log
    ensures var l := LoadPolicy(env, t, cfg.id);
            SignTransaction(env, lib, cfg, t, psbt).st.log != t.log ==>
              l.res.Ok? && Permits(l.res.value, psbt.tx, cfg.network)
    ensures var name := ObjectLabel(cfg.id, PolicySuffix);
            RecordsOf(SignTransaction(env, lib, cfg, t, psbt).st.objs, name) == RecordsOf(t.objs, name)
    ensures var u := SignTransaction(env, lib, cfg, t, psbt).st;
            var again := LoadPolicy(env, u, cfg.id).res;
            u.log != t.log && |Matching(t.objs, Data, ObjectLabel(cfg.id, PolicySuffix))| <= 1 ==>
              again == Err(Refused) || (again.Ok? && Permits(again.value, psbt.tx, cfg.network))
    ensures var found := Matching(t.objs, Data, "emvault.v1." + cfg.id + ".policy");
            SignTransaction(env, lib, cfg, t, psbt).st.log != t.log && found != {} ==>
              exists h, p :: h in found && t.objs[h].value == Some(PolicyJson(p)) && Permits(p, psbt.tx, cfg.network)
  {
    StoredPolicy(env, t, cfg.id);
    LoadPolicyFrame(env, t, cfg.id);
    CallShape(env, lib, cfg, t, psbt);
    if Passes(env, cfg, t, psbt.tx) {
      PolicyUntouched(env, lib, cfg, t, psbt);
    }
    if |Matching(t.objs, Data, ObjectLabel(cfg.id, PolicySuffix))| <= 1 {
      SamePolicyRead(env, t, SignTransaction(env, lib, cfg, t, psbt).st, cfg.id);
    }
  }

  // The gate on the record itself. With one policy on the token under the signer's label, the loop
  // is entered if and only if the policy is read and permits the PSBT; otherwise PSBT, objects and
  // log stay as they are.
  lemma StoredPolicyGate(env: Env, lib: Library, cfg: Config, t: TokenState, psbt: Psbt, h: Handle, p: HsmPolicy)
    requires Enumerates(env) && Matching(t.objs, Data, "emvault.v1." + cfg.id + ".policy") == {h}
    requires h in t.objs && t.objs[h].value == Some(PolicyJson(p))
    ensures var c := SignTransaction(env, lib, cfg, t, psbt);
            if Served(env, t.ticks, 2) && Permits(p, psbt.tx, cfg.network) then
              c.inputs == AddAll(psbt.inputs, SignFrom(env, lib, cfg, t.(ticks := t.ticks + 2), psbt.tx,
                                                       Facts(psbt.inputs), 0).adds)
            else
              c.res.Err? && c.inputs == psbt.inputs && c.st.objs == t.objs && c.st.log == t.log
  {
    StoredPolicy(env, t, cfg.id);
    CallShape(env, lib, cfg, t, psbt);
    LoadPolicyFrame(env, t, cfg.id);
    if Served(env, t.ticks, 2) {
      LabelText(cfg.id);
      OrderOfOne(env, t.ticks, h);
      assert LoadPolicy(env, t, cfg.id).st == t.(ticks := t.ticks + 2);
    }
  }

  // With no record there is no rule.
  lemma NoPolicyGate(env: Env, lib: Library, cfg: Config, t: TokenState, psbt: Psbt)
    requires Enumerates(env) && Matching(t.objs, Data, "emvault.v1." + cfg.id + ".policy") == {}
    requires Served(env, t.ticks, 1)
    ensures SignTransaction(env, lib, cfg, t, psbt).inputs
         == AddAll(psbt.inputs, SignFrom(env, lib, cfg, t.(ticks := t.ticks + 1), psbt.tx, Facts(psbt.inputs), 0).adds)
  {
    StoredPolicy(env, t, cfg.id);
    CallShape(env, lib, cfg, t, psbt);
    LabelText(cfg.id);
    OrderOfNone(env, t.ticks);
  }

  lemma SamePolicyRead(env: Env, t: TokenState, u: TokenState, id: string)
    requires Enumerates(env) && |Matching(t.objs, Data, ObjectLabel(id, PolicySuffix))| <= 1
    requires RecordsOf(t.objs, ObjectLabel(id, PolicySuffix)) == RecordsOf(u.objs, ObjectLabel(id, PolicySuffix))
    ensures var l, m := LoadPolicy(env, t, id).res, LoadPolicy(env, u, id).res;
            l.Ok? ==> m == Err(Refused) || m == l
  {
    SameRecordSameLoad(env, t, u, ObjectLabel(id, PolicySuffix));
  }

  lemma PolicyUntouched(env: Env, lib: Library, cfg: Config, t: TokenState, psbt: Psbt)
    requires Ready(cfg, t) && Enumerates(env) && Passes(env, cfg, t, psbt.tx)
    ensures var p := LoopOf(env, lib, cfg, t, psbt);
            var c := FinishCall(env, cfg, LoadPolicy(env, t, cfg.id).res.value, p, psbt.inputs);
            var name := ObjectLabel(cfg.id, PolicySuffix);
            RecordsOf(c.st.objs, name) == RecordsOf(t.objs, name)
  {
    var p := LoopOf(env, lib, cfg, t, psbt);
    var policy := LoadPolicy(env, t, cfg.id).res.value;
    LoopToken(env, lib, cfg, t, psbt);
    FinishCallFrame(env, cfg, policy, p, psbt.inputs);
    var c := FinishCall(env, cfg, policy, p, psbt.inputs);
    var m, n := ObjectLabel(cfg.id, SigRateSuffix), ObjectLabel(cfg.id, PolicySuffix);
    if m == n {
      ObjectLabelInjective(cfg.id, SigRateSuffix, cfg.id, PolicySuffix);
    }
    GrowsKeepsRecords(t, p.st, n);
    OthersMatch(p.st.objs, c.st.objs, m, n);
  }

  // The ceiling is looked at after the loop: among policies that let the PSBT through, it has no
  // influence on the signatures the call leaves in the PSBT, nor on what was signed.
  lemma CeilingComesTooLate(env: Env, lib: Library, cfg: Config, t: TokenState, psbt: Psbt, p: HsmPolicy, q: HsmPolicy)
    requires Ready(cfg, t) && Enumerates(env)
    requires Permits(p, psbt.tx, cfg.network) && Permits(q, psbt.tx, cfg.network)
    ensures SignUnder(env, lib, cfg, t, p, psbt).inputs == SignUnder(env, lib, cfg, t, q, psbt).inputs
    ensures SignUnder(env, lib, cfg, t, p, psbt).st.log == SignUnder(env, lib, cfg, t, q, psbt).st.log
  {
    var plan := SignFrom(env, lib, cfg, t, psbt.tx, Facts(psbt.inputs), 0);
    SignFromToken(env, lib, cfg, t, psbt.tx, Facts(psbt.inputs), 0);
    FinishCallFrame(env, cfg, p, plan, psbt.inputs);
    FinishCallFrame(env, cfg, q, plan, psbt.inputs);
  }
}
