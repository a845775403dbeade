// When a taproot input releases the leaf key it derived, and when it leaves it on the token.
module TaprootCleanup {
  import opened Results
  import opened Bip32
  import opened Policy
  import opened TokenModel
  import opened Backend
  import opened PsbtModel
  import opened Signer
  import opened SigningEffect

  predicate HaveMessages(lib: Library, c: TapContext, leaves: seq<LeafHash>) {
    forall k :: 0 <= k < |leaves| ==> LeafMessage(lib, c, leaves[k]).Some?
  }

  // The loop over the leaves ends if and only if every leaf has a sighash and no signature is
  // refused, and it makes one call per leaf.
  lemma {:induction false} LeavesOkIff(env: Env, lib: Library, cfg: Config, t: TokenState, h: Handle, o: TapOrigin,
                                       c: TapContext, leaves: seq<LeafHash>)
    requires h in t.objs && t.objs[h].key.Some? && !env.taproot.NoTaproot?
    ensures var l := SignLeaves(env, lib, cfg, t, h, o, c, leaves);
            && (l.res.Ok? <==> HaveMessages(lib, c, leaves) && Served(env, t.ticks, |leaves|))
            && (l.res.Ok? ==> l.st.ticks == t.ticks + |leaves|)
            && l.st.objs == t.objs
    decreases |leaves|
  {
    if leaves != [] {
      var a := SignLeaf(env, lib, cfg, t, h, o, c, leaves[0]);
      assert a.res.Ok? <==> LeafMessage(lib, c, leaves[0]).Some? && !env.fails(t.ticks);
      if a.res.Ok? {
        LeavesOkIff(env, lib, cfg, a.st, h, o, c, leaves[1..]);
        assert leaves == [leaves[0]] + leaves[1..];
      }
    }
  }

  // What the input still needs once the leaf key is derived, from call k on: all prevouts and a
  // sighash type, a sighash for every leaf, and no refusal of a signature or of the destroy.
  ghost predicate ReleasesFrom(env: Env, lib: Library, k: nat, o: TapOrigin, tx: UnsignedTx, facts: seq<InputFacts>,
                               i: nat)
    requires i < |facts|
  {
    var ty := TapTypeOf(lib, facts[i]);
    && AllSpent(facts) && ty.Some? && Served(env, k, |o.leaves| + 1)
    && forall leaf :: leaf in o.leaves ==> lib.tapscript(tx, i, SpentOutputs(facts), leaf, ty.value).Some?
  }

  lemma HandleReleasedIff(env: Env, lib: Library, cfg: Config, t: TokenState, h: Handle, o: TapOrigin, tx: UnsignedTx,
                          facts: seq<InputFacts>, i: nat)
    requires h in t.objs && t.objs[h].key.Some? && h != cfg.handle && i < |facts| && !env.taproot.NoTaproot?
    ensures var r := SignTapWith(env, lib, cfg, t, h, o, tx, facts, i);
            && (h !in r.st.objs <==> ReleasesFrom(env, lib, t.ticks, o, tx, facts, i))
            && (h in r.st.objs ==> r.st.objs == t.objs)
  {
    TapContextMeaning(lib, tx, facts, i);
    var c := TapContextOf(lib, tx, facts, i);
    if c.Ok? {
      LeavesOkIff(env, lib, cfg, t, h, o, c.value, o.leaves);
    }
  }

  // On any outcome but success nothing is destroyed.
  lemma FailedTaprootKeepsHandle(env: Env, lib: Library, cfg: Config, t: TokenState, h: Handle, o: TapOrigin,
                                 tx: UnsignedTx, facts: seq<InputFacts>, i: nat, k: Key)
    requires Valid(t) && h in t.objs && t.objs[h].key == Some(k) && i < |facts|
    ensures var r := SignTapWith(env, lib, cfg, t, h, o, tx, facts, i);
            r.res.Err? ==> r.st.objs == t.objs
  {
    var c := TapContextOf(lib, tx, facts, i);
    if c.Ok? {
      SignLeavesEffect(env, lib, cfg, t, h, o, c.value, o.leaves,
                       if env.taproot.ByName? then env.remote(cfg.id, o.path) else k);
    }
  }

  // Input i has leaves of ours to sign with a key below the federation key, and the token serves
  // its derivation.
  ghost predicate DerivesLeafKey(env: Env, cfg: Config, t: TokenState, f: InputFacts) {
    var o := FindTapOrigin(f.tapOrigins, cfg.fingerprint);
    && Ready(cfg, t) && !env.taproot.NoTaproot?
    && o.Some? && o.value.leaves != [] && |cfg.path| < |o.value.path|
    && Served(env, t.ticks, |o.value.path| - |cfg.path|)
  }

  lemma LeafKeyDerived(env: Env, cfg: Config, t: TokenState, f: InputFacts)
    requires DerivesLeafKey(env, cfg, t, f)
    ensures var o := FindTapOrigin(f.tapOrigins, cfg.fingerprint).value;
            var n := |o.path| - |cfg.path|;
            var d := SigningHandle(env, cfg, t, Relative(cfg, o.path));
            && d.res == Ok(t.next + n - 1) && d.st.ticks == t.ticks + n && |d.st.objs| == |t.objs| + n
            && d.res.value in d.st.objs && d.st.objs[d.res.value].key.Some? && d.res.value != cfg.handle
  {
    var relative := Relative(cfg, FindTapOrigin(f.tapOrigins, cfg.fingerprint).value.path);
    DeriveOkIff(env, t, cfg.handle, relative);
    DeriveEffect(env, t, cfg.handle, relative);
  }

  // Unlike the ECDSA path, the taproot path destroys the leaf key it derived if and only if it
  // gets past every prevout, sighash and signature, and the destroy itself is not refused.
  // Otherwise all keys derived for the input stay, the leaf key with the intermediate ones.
  lemma LeafKeyReleasedIff(env: Env, lib: Library, cfg: Config, t: TokenState, tx: UnsignedTx, facts: seq<InputFacts>,
                           i: nat)
    requires i < |facts| && DerivesLeafKey(env, cfg, t, facts[i])
    ensures var o := FindTapOrigin(facts[i].tapOrigins, cfg.fingerprint).value;
            var n := |o.path| - |cfg.path|;
            var r := SignTaproot(env, lib, cfg, t, tx, facts, i);
            && (t.next + n - 1 !in r.st.objs <==> ReleasesFrom(env, lib, t.ticks + n, o, tx, facts, i))
            && (t.next + n - 1 in r.st.objs ==> |r.st.objs| == |t.objs| + n)
  {
    var o := FindTapOrigin(facts[i].tapOrigins, cfg.fingerprint).value;
    LeafKeyDerived(env, cfg, t, facts[i]);
    var d := SigningHandle(env, cfg, t, Relative(cfg, o.path));
    HandleReleasedIff(env, lib, cfg, d.st, d.res.value, o, tx, facts, i);
  }

  // For one, any input of the transaction without a witness UTXO: the call fails before the
  // first signature, with one more key on the token for every segment below the federation path.
  lemma MissingPrevoutKeepsLeafKey(env: Env, lib: Library, cfg: Config, t: TokenState, tx: UnsignedTx,
                                   facts: seq<InputFacts>, i: nat, j: nat)
    requires i < |facts| && j < |facts| && facts[j].witnessUtxo.None? && DerivesLeafKey(env, cfg, t, facts[i])
    ensures var n := |FindTapOrigin(facts[i].tapOrigins, cfg.fingerprint).value.path| - |cfg.path|;
            var r := SignTaproot(env, lib, cfg, t, tx, facts, i);
            r.res.Err? && t.next + n - 1 in r.st.objs && |r.st.objs| == |t.objs| + n
  {
    LeafKeyReleasedIff(env, lib, cfg, t, tx, facts, i);
    PrevoutsMeaning(facts);
    LeafKeyDerived(env, cfg, t, facts[i]);
  }
}
