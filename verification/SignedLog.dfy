// What the token was asked to sign: every entry of the log, also for signatures thrown away.
module SignedLog {
  import opened Results
  import opened Bip32
  import opened Policy
  import opened TokenModel
  import opened Store
  import opened PsbtModel
  import opened Signer
  import opened SigningEffect
  import opened SigningTheorems
  import opened Elements

  // The key the backend's transport uses, given that of the handle.
  function LeafKey(env: Env, cfg: Config, o: TapOrigin, ofHandle: Key): Key {
    if env.taproot.ByName? then env.remote(cfg.id, o.path) else ofHandle
  }

  // A Schnorr signature by this key over the sighash of one of the leaves.
  ghost predicate LeafCall(lib: Library, c: TapContext, leaves: seq<LeafHash>, key: Key, call: SignCall) {
    exists leaf :: leaf in leaves && LeafMessage(lib, c, leaf).Some?
                   && call == SignCall(SchnorrScheme, key, LeafMessage(lib, c, leaf).value)
  }

  // A signature by the key used for our origin of input j, over the sighash of that input: with
  // taproot data, of one of our leaves.
  ghost predicate OwnCall(env: Env, lib: Library, cfg: Config, fed: Key, tx: UnsignedTx, facts: seq<InputFacts>,
                          j: nat, call: SignCall)
    requires j < |facts|
  {
    var f := facts[j];
    if IsTaproot(f) then
      var o, ty := FindTapOrigin(f.tapOrigins, cfg.fingerprint), TapTypeOf(lib, f);
      && o.Some? && |cfg.path| <= |o.value.path| && ty.Some? && AllSpent(facts)
      && call.scheme == SchnorrScheme && call.key == UsedTapKey(env, cfg, fed, o.value.path)
      && exists leaf :: leaf in o.value.leaves
                        && lib.tapscript(tx, j, SpentOutputs(facts), leaf, ty.value) == Some(call.message)
    else
      var o, ty := FindOrigin(f.origins, cfg.fingerprint), EcdsaTypeOf(lib, f);
      && o.Some? && |cfg.path| <= |o.value.path| && ty.Some? && f.witnessScript.Some? && f.witnessUtxo.Some?
      && call.scheme == EcdsaScheme && call.key == UsedKey(cfg, fed, o.value.path)
      && lib.p2wsh(tx, j, f.witnessScript.value, f.witnessUtxo.value.value, ty.value) == Some(call.message)
  }

  lemma {:induction false} LeavesLog(env: Env, lib: Library, cfg: Config, t: TokenState, h: Handle, o: TapOrigin,
                                     c: TapContext, leaves: seq<LeafHash>, key: Key, n: nat)
    requires Valid(t) && h in t.objs
    requires t.objs[h].key.Some? && key == LeafKey(env, cfg, o, t.objs[h].key.value)
    requires var l := SignLeaves(env, lib, cfg, t, h, o, c, leaves);
             |t.log| <= n < |l.st.log|
    ensures LeafCall(lib, c, leaves, key, SignLeaves(env, lib, cfg, t, h, o, c, leaves).st.log[n])
    decreases |leaves|
  {
    var a := SignLeaf(env, lib, cfg, t, h, o, c, leaves[0]);
    LeafLog(env, lib, cfg, t, h, o, c, leaves[0], key);
    if a.res.Ok? {
      LeavesGrow(env, lib, cfg, a.st, h, o, c, leaves[1..]);
      if n >= |a.st.log| {
        LeavesLog(env, lib, cfg, a.st, h, o, c, leaves[1..], key, n);
      }
    }
  }

  lemma LeafLog(env: Env, lib: Library, cfg: Config, t: TokenState, h: Handle, o: TapOrigin, c: TapContext,
                leaf: LeafHash, key: Key)
    requires h in t.objs
    requires t.objs[h].key.Some? && key == LeafKey(env, cfg, o, t.objs[h].key.value)
    ensures var a := SignLeaf(env, lib, cfg, t, h, o, c, leaf);
            && a.st.objs == t.objs && a.st.next == t.next
            && (a.st.log == t.log
                || (LeafMessage(lib, c, leaf).Some?
                    && a.st.log == t.log + [SignCall(SchnorrScheme, key, LeafMessage(lib, c, leaf).value)]))
  {
  }

  lemma LeavesGrow(env: Env, lib: Library, cfg: Config, t: TokenState, h: Handle, o: TapOrigin, c: TapContext,
                   leaves: seq<LeafHash>)
    requires Valid(t) && h in t.objs && t.objs[h].key.Some?
    ensures var l := SignLeaves(env, lib, cfg, t, h, o, c, leaves);
            t.log <= l.st.log && l.st.objs == t.objs
  {
    SignLeavesEffect(env, lib, cfg, t, h, o, c, leaves,
                     LeafKey(env, cfg, o, t.objs[h].key.value));
  }

  lemma TaprootLog(env: Env, lib: Library, cfg: Config, t: TokenState, tx: UnsignedTx, facts: seq<InputFacts>, i: nat,
                   n: nat)
    requires Ready(cfg, t) && i < |facts| && IsTaproot(facts[i])
    requires var r := SignTaproot(env, lib, cfg, t, tx, facts, i);
             |t.log| <= n < |r.st.log|
    ensures OwnCall(env, lib, cfg, FederationKey(cfg, t), tx, facts, i,
                    SignTaproot(env, lib, cfg, t, tx, facts, i).st.log[n])
  {
    var o := FindTapOrigin(facts[i].tapOrigins, cfg.fingerprint).value;
    SigningHandleEffect(env, cfg, t, Relative(cfg, o.path));
    var d := SigningHandle(env, cfg, t, Relative(cfg, o.path));
    var c := TapContextOf(lib, tx, facts, i).value;
    LeavesLog(env, lib, cfg, d.st, d.res.value, o, c, o.leaves, UsedTapKey(env, cfg, FederationKey(cfg, t), o.path), n);
    TapContextMeaning(lib, tx, facts, i);
  }

  lemma InputLog(env: Env, lib: Library, cfg: Config, t: TokenState, tx: UnsignedTx, facts: seq<InputFacts>, i: nat,
                 n: nat)
    requires Ready(cfg, t) && i < |facts|
    requires var r := SignInput(env, lib, cfg, t, tx, facts, i);
             |t.log| <= n < |r.st.log|
    ensures OwnCall(env, lib, cfg, FederationKey(cfg, t), tx, facts, i,
                    SignInput(env, lib, cfg, t, tx, facts, i).st.log[n])
  {
    if IsTaproot(facts[i]) {
      TaprootLog(env, lib, cfg, t, tx, facts, i, n);
    } else {
      var task := EcdsaTaskOf(lib, cfg, tx, facts[i], i);
      TaskMeaning(lib, cfg, tx, facts[i], i);
      SignAtEffect(env, cfg, t, Relative(cfg, task.value.value.path), task.value.value.message);
    }
  }

  lemma {:induction false} LoopLog(env: Env, lib: Library, cfg: Config, t: TokenState, tx: UnsignedTx,
                                   facts: seq<InputFacts>, i: nat, n: nat) returns (j: nat)
    requires Ready(cfg, t) && i <= |facts|
    requires var p := SignFrom(env, lib, cfg, t, tx, facts, i);
             |t.log| <= n < |p.st.log|
    ensures i <= j < |facts|
    ensures OwnCall(env, lib, cfg, FederationKey(cfg, t), tx, facts, j,
                    SignFrom(env, lib, cfg, t, tx, facts, i).st.log[n])
    decreases |facts| - i
  {
    var a := SignInput(env, lib, cfg, t, tx, facts, i);
    SignInputToken(env, lib, cfg, t, tx, facts, i);
    j := i;
    if a.res.Ok? {
      SignFromToken(env, lib, cfg, a.st, tx, facts, i + 1);
    }
    if n < |a.st.log| {
      InputLog(env, lib, cfg, t, tx, facts, i, n);
    } else {
      j := LoopLog(env, lib, cfg, a.st, tx, facts, i + 1, n);
    }
  }

  // Whatever the outcome of a call, the token signed nothing but our own inputs of this PSBT: each
  // new entry of the log is by the key used for our origin of some input, over that input's
  // message.
  lemma SignedOnlyOwnInputs(env: Env, lib: Library, cfg: Config, t: TokenState, psbt: Psbt, n: nat) returns (j: nat)
    requires Ready(cfg, t) && Enumerates(env)
    requires |t.log| <= n < |SignTransaction(env, lib, cfg, t, psbt).st.log|
    ensures j < |psbt.inputs|
    ensures OwnCall(env, lib, cfg, FederationKey(cfg, t), psbt.tx, Facts(psbt.inputs), j,
                    SignTransaction(env, lib, cfg, t, psbt).st.log[n])
  {
    LoadPolicyFrame(env, t, cfg.id);
    CallShape(env, lib, cfg, t, psbt);
    LoopToken(env, lib, cfg, t, psbt);
    FinishCallFrame(env, cfg, LoadPolicy(env, t, cfg.id).res.value, LoopOf(env, lib, cfg, t, psbt), psbt.inputs);
    j := LoopLog(env, lib, cfg, LoadPolicy(env, t, cfg.id).st, psbt.tx, Facts(psbt.inputs), 0, n);
  }

  // ------------------------------------------------------------------------------------------
  // PSET calls
  // ------------------------------------------------------------------------------------------

  // A signature by the key used for our origin of PSET input j, over the message of that input.
  ghost predicate OwnPsetCall(lib: ElementsLibrary, cfg: Config, fed: Key, tx: Transaction, facts: seq<PsetFacts>,
                              j: nat, call: SignCall)
    requires j < |facts|
  {
    var f := facts[j];
    var o := FindOrigin(f.origins, cfg.fingerprint);
    && o.Some? && |cfg.path| <= |o.value.path| && f.witnessScript.Some? && f.amount.Some?
    && call == SignCall(EcdsaScheme, UsedKey(cfg, fed, o.value.path),
                        lib.segwitV0(tx, j, f.witnessScript.value, f.amount.value, PsetTypeOf(lib, f)))
  }

  lemma PsetInputLog(env: Env, lib: ElementsLibrary, cfg: Config, t: TokenState, tx: Transaction, facts: seq<PsetFacts>,
                     i: nat, n: nat)
    requires Ready(cfg, t) && i < |facts|
    requires |t.log| <= n < |SignPsetInput(env, lib, cfg, t, tx, facts[i], i).st.log|
    ensures OwnPsetCall(lib, cfg, FederationKey(cfg, t), tx, facts, i,
                        SignPsetInput(env, lib, cfg, t, tx, facts[i], i).st.log[n])
  {
    var task := PsetTaskOf(lib, cfg, tx, facts[i], i);
    PsetTaskMeaning(lib, cfg, tx, facts[i], i);
    SignAtEffect(env, cfg, t, Relative(cfg, task.value.value.path), task.value.value.message);
  }

  lemma {:induction false} PsetLoopLog(env: Env, lib: ElementsLibrary, cfg: Config, t: TokenState, tx: Transaction,
                                       facts: seq<PsetFacts>, i: nat, n: nat) returns (j: nat)
    requires Ready(cfg, t) && i <= |facts|
    requires |t.log| <= n < |SignPsetFrom(env, lib, cfg, t, tx, facts, i).st.log|
    ensures i <= j < |facts|
    ensures OwnPsetCall(lib, cfg, FederationKey(cfg, t), tx, facts, j,
                        SignPsetFrom(env, lib, cfg, t, tx, facts, i).st.log[n])
    decreases |facts| - i
  {
    var a := SignPsetInput(env, lib, cfg, t, tx, facts[i], i);
    SignPsetInputToken(env, lib, cfg, t, tx, facts[i], i);
    j := i;
    if a.res.Ok? {
      SignPsetToken(env, lib, cfg, a.st, tx, facts, i + 1);
    }
    if n < |a.st.log| {
      PsetInputLog(env, lib, cfg, t, tx, facts, i, n);
    } else {
      j := PsetLoopLog(env, lib, cfg, a.st, tx, facts, i + 1, n);
    }
  }

  // Nor does a PSET call sign anything but our own inputs of this PSET; what does not extract to a
  // transaction is not signed at all.
  lemma SignedOnlyOwnPsetInputs(env: Env, lib: ElementsLibrary, cfg: Config, t: TokenState, pset: Pset, n: nat)
    returns (j: nat)
    requires Ready(cfg, t) && Enumerates(env)
    requires |t.log| <= n < |SignPset(env, lib, cfg, t, pset).st.log|
    ensures j < |pset.inputs| && lib.extract(pset).Some?
    ensures OwnPsetCall(lib, cfg, FederationKey(cfg, t), lib.extract(pset).value, PsetFactsOf(pset.inputs), j,
                        SignPset(env, lib, cfg, t, pset).st.log[n])
  {
    var l := LoadPolicy(env, t, cfg.id);
    LoadPolicyFrame(env, t, cfg.id);
    PsetCallShape(env, lib, cfg, t, pset);
    PsetLoopToken(env, lib, cfg, t, pset);
    FinishPsetFrame(env, cfg, l.res.value, PsetLoopOf(env, lib, cfg, t, pset), pset.inputs);
    j := PsetLoopLog(env, lib, cfg, l.st, lib.extract(pset).value, PsetFactsOf(pset.inputs), 0, n);
  }
}
