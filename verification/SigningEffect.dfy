// What one signing call does to the token and to the PSBT.
module SigningEffect {
  import opened Results
  import opened Bip32
  import opened Policy
  import opened TokenModel
  import opened Backend
  import opened PsbtModel
  import opened Signer
  import Ecdsa

  // The signer's handle is a key of the token.
  ghost predicate Ready(cfg: Config, t: TokenState) {
    Valid(t) && cfg.handle in t.objs && t.objs[cfg.handle].key.Some?
  }

  function FederationKey(cfg: Config, t: TokenState): Key
    requires cfg.handle in t.objs && t.objs[cfg.handle].key.Some?
  {
    t.objs[cfg.handle].key.value
  }

  // ------------------------------------------------------------------------------------------
  // Signatures and who made them
  // ------------------------------------------------------------------------------------------

  ghost predicate EcdsaBy(env: Env, k: Key, m: Message, g: Ecdsa.Signature) {
    exists nonce: nat :: Ecdsa.FromToken(env.ecdsa(k, m, nonce)) == Ok(g)
  }

  ghost predicate SchnorrBy(env: Env, k: Key, m: Message, g: seq<byte>) {
    exists nonce: nat :: g == env.schnorr(k, m, nonce)
  }

  // Stripping the prefix drops as many segments as the federation path has, whatever they are.
  function Relative(cfg: Config, path: Path): Path
    requires |cfg.path| <= |path|
  {
    path[|cfg.path|..]
  }

  // The key a by-handle signer uses for an input path, given the federation key.
  function UsedKey(cfg: Config, fed: Key, path: Path): Key
    requires |cfg.path| <= |path|
  {
    Descend(fed, Relative(cfg, path))
  }

  // The key the backend's Schnorr transport uses.
  function UsedTapKey(env: Env, cfg: Config, fed: Key, path: Path): Key
    requires |cfg.path| <= |path|
  {
    if env.taproot.ByName? then env.remote(cfg.id, path) else UsedKey(cfg, fed, path)
  }

  // A signature by this key over the P2WSH sighash of input i.
  ghost predicate EcdsaOver(env: Env, lib: Library, tx: UnsignedTx, f: InputFacts, i: nat, key: Key, g: EcdsaSig) {
    && EcdsaTypeOf(lib, f) == Some(g.sighashType) && f.witnessScript.Some? && f.witnessUtxo.Some?
    && (var m := lib.p2wsh(tx, i, f.witnessScript.value, f.witnessUtxo.value.value, g.sighashType);
        m.Some? && EcdsaBy(env, key, m.value, g.signature))
  }

  // A signature by this key over the sighash of a leaf of input i, committing to all outputs spent.
  ghost predicate SchnorrOver(env: Env, lib: Library, tx: UnsignedTx, facts: seq<InputFacts>, i: nat, leaf: LeafHash,
                              key: Key, g: TapSig)
    requires i < |facts|
  {
    && TapTypeOf(lib, facts[i]) == Some(g.sighashType) && AllSpent(facts)
    && (var m := lib.tapscript(tx, i, SpentOutputs(facts), leaf, g.sighashType);
        m.Some? && SchnorrBy(env, key, m.value, g.signature))
  }

  ghost predicate SoundEcdsa(env: Env, lib: Library, cfg: Config, fed: Key, tx: UnsignedTx, f: InputFacts, i: nat,
                             pk: PubKey, g: EcdsaSig) {
    var o := FindOrigin(f.origins, cfg.fingerprint);
    && o.Some? && |cfg.path| <= |o.value.path| && pk == PubKey(true, o.value.pk)
    && EcdsaOver(env, lib, tx, f, i, UsedKey(cfg, fed, o.value.path), g)
  }

  ghost predicate SoundTap(env: Env, lib: Library, cfg: Config, fed: Key, tx: UnsignedTx, facts: seq<InputFacts>,
                           i: nat, tk: TapKey, g: TapSig)
    requires i < |facts|
  {
    var o := FindTapOrigin(facts[i].tapOrigins, cfg.fingerprint);
    && o.Some? && |cfg.path| <= |o.value.path| && tk.xonly == o.value.xonly && tk.leaf in o.value.leaves
    && SchnorrOver(env, lib, tx, facts, i, tk.leaf, UsedTapKey(env, cfg, fed, o.value.path), g)
  }

  // Every signature of an addition is sound.
  ghost predicate Sound(env: Env, lib: Library, cfg: Config, fed: Key, tx: UnsignedTx, facts: seq<InputFacts>, i: nat,
                        s: InputSigs)
    requires i < |facts|
  {
    && (forall pk :: pk in s.ecdsa ==> SoundEcdsa(env, lib, cfg, fed, tx, facts[i], i, pk, s.ecdsa[pk]))
    && (forall tk :: tk in s.tap ==> SoundTap(env, lib, cfg, fed, tx, facts, i, tk, s.tap[tk]))
  }

  // The map keys signing fills on an input: one public key, or our (x-only key, leaf) pairs.
  function EcdsaKeys(cfg: Config, f: InputFacts): set<PubKey> {
    var o := FindOrigin(f.origins, cfg.fingerprint);
    if IsTaproot(f) || o.None? then {} else {PubKey(true, o.value.pk)}
  }

  function TapKeys(cfg: Config, f: InputFacts): set<TapKey> {
    var o := FindTapOrigin(f.tapOrigins, cfg.fingerprint);
    if !IsTaproot(f) || o.None? then {} else LeafKeys(o.value.xonly, o.value.leaves)
  }

  function LeafKeys(xonly: XOnly, leaves: seq<LeafHash>): set<TapKey> {
    set l | l in leaves :: TapKey(xonly, l)
  }

  ghost predicate KeysWithin(cfg: Config, f: InputFacts, s: InputSigs) {
    s.ecdsa.Keys <= EcdsaKeys(cfg, f) && s.tap.Keys <= TapKeys(cfg, f)
  }

  ghost predicate KeysExactly(cfg: Config, f: InputFacts, s: InputSigs) {
    s.ecdsa.Keys == EcdsaKeys(cfg, f) && s.tap.Keys == TapKeys(cfg, f)
  }

  // Session objects an input leaves behind: the intermediate keys of its derivation.
  function Leftover(cfg: Config, path: Path): nat {
    if |path| <= |cfg.path| then 0 else |path| - |cfg.path| - 1
  }

  function InputLeftover(cfg: Config, f: InputFacts): nat {
    if IsTaproot(f) then
      var o := FindTapOrigin(f.tapOrigins, cfg.fingerprint);
      if o.None? || o.value.leaves == [] then 0 else Leftover(cfg, o.value.path)
    else
      var o := FindOrigin(f.origins, cfg.fingerprint);
      if o.None? then 0 else Leftover(cfg, o.value.path)
  }

  function TotalLeftover(cfg: Config, facts: seq<InputFacts>, i: nat): nat
    requires i <= |facts|
    decreases |facts| - i
  {
    if i == |facts| then 0 else InputLeftover(cfg, facts[i]) + TotalLeftover(cfg, facts, i + 1)
  }

  // ------------------------------------------------------------------------------------------
  // One key, one message
  // ------------------------------------------------------------------------------------------

  lemma ReleaseEffect(env: Env, cfg: Config, t: TokenState, u: TokenState, h: Handle)
    requires Grows(t, u) && Ready(cfg, t)
    requires h == cfg.handle || (h in u.objs && h !in t.objs)
    ensures var v := Release(env, cfg, u, h);
            && Grows(t, v) && v.log == u.log
            && (h == cfg.handle ==> v == u)
            && (h != cfg.handle ==> v.ticks == u.ticks + 1)
            && (h != cfg.handle && !env.fails(u.ticks) ==> h !in v.objs && |v.objs| == |u.objs| - 1)
  {
    if h != cfg.handle && !env.fails(u.ticks) {
      assert (u.objs - {h}).Keys == u.objs.Keys - {h};
      assert |(u.objs - {h}).Keys| == |u.objs| - 1;
    }
  }

  // The handle denotes the key at the end of the relative path, and is either the federation
  // handle or new.
  lemma SigningHandleEffect(env: Env, cfg: Config, t: TokenState, relative: Path)
    requires Ready(cfg, t)
    ensures var d := SigningHandle(env, cfg, t, relative);
            && Grows(t, d.st) && d.st.log == t.log
            && (d.res.Ok? ==>
                  && d.res.value in d.st.objs
                  && d.st.objs[d.res.value].key == Some(Descend(FederationKey(cfg, t), relative))
                  && (if relative == [] then d.res.value == cfg.handle else d.res.value !in t.objs)
                  && |d.st.objs| == |t.objs| + |relative|)
  {
    DeriveEffect(env, t, cfg.handle, relative);
    assert Descend(FederationKey(cfg, t), []) == FederationKey(cfg, t);
  }

  // A successful signature is by the key at the end of the relative path; whatever happens,
  // nothing that existed is touched.
  lemma SignAtEffect(env: Env, cfg: Config, t: TokenState, relative: Path, msg: Message)
    requires Ready(cfg, t)
    ensures var s := SignAt(env, cfg, t, relative, msg);
            && Grows(t, s.st)
            && (s.res.Ok? ==> EcdsaBy(env, Descend(FederationKey(cfg, t), relative), msg, s.res.value))
            && (forall k :: |t.log| <= k < |s.st.log| ==>
                  s.st.log[k] == SignCall(EcdsaScheme, Descend(FederationKey(cfg, t), relative), msg))
            && (s.res.Ok? && NoneFails(env, t, s.st) ==>
                  |s.st.objs| == |t.objs| + (if relative == [] then 0 else |relative| - 1))
  {
    SigningHandleEffect(env, cfg, t, relative);
    var d := SigningHandle(env, cfg, t, relative);
    if d.res.Ok? {
      var s := SignEcdsa(env, d.st, d.res.value, msg);
      SignEcdsaEffect(env, d.st, d.res.value, msg);
      GrowsTransitive(t, d.st, s.st);
      ReleaseEffect(env, cfg, t, s.st, d.res.value);
    }
  }

  // Once a leaf key is derived its handle is destroyed, also when signing fails; only a refused
  // destroy, the last call made, leaves it on the token.
  lemma FailedSignatureReleases(env: Env, cfg: Config, t: TokenState, relative: Path, msg: Message)
    requires Ready(cfg, t) && relative != []
    requires SigningHandle(env, cfg, t, relative).res.Ok?
    ensures var h := SigningHandle(env, cfg, t, relative).res.value;
            var s := SignAt(env, cfg, t, relative, msg);
            s.st.ticks > t.ticks && (h !in s.st.objs || env.fails(s.st.ticks - 1))
  {
    SigningHandleEffect(env, cfg, t, relative);
    var d := SigningHandle(env, cfg, t, relative);
    var s := SignEcdsa(env, d.st, d.res.value, msg);
    SignEcdsaEffect(env, d.st, d.res.value, msg);
    GrowsTransitive(t, d.st, s.st);
    ReleaseEffect(env, cfg, t, s.st, d.res.value);
  }

  lemma SignEcdsaEffect(env: Env, t: TokenState, h: Handle, msg: Message)
    requires Valid(t) && h in t.objs && t.objs[h].key.Some?
    ensures var s := SignEcdsa(env, t, h, msg);
            && Grows(t, s.st) && s.st.objs == t.objs
            && (s.st.log == t.log || s.st.log == t.log + [SignCall(EcdsaScheme, t.objs[h].key.value, msg)])
            && (s.res.Ok? ==>
                  && EcdsaBy(env, t.objs[h].key.value, msg, s.res.value)
                  && Ecdsa.NormalizeS(s.res.value) == s.res.value)
  {
    var raw := SignRaw(env, t, h, msg);
    if raw.res.Ok? {
      assert raw.res.value == env.ecdsa(t.objs[h].key.value, msg, t.ticks);
    }
  }

  lemma SignP2wshToken(env: Env, lib: Library, cfg: Config, t: TokenState, tx: UnsignedTx, f: InputFacts, i: nat)
    requires Ready(cfg, t) && !IsTaproot(f)
    ensures TokenDone(env, cfg, t, f, SignP2wsh(env, lib, cfg, t, tx, f, i))
  {
    var task := EcdsaTaskOf(lib, cfg, tx, f, i);
    if task.Ok? && task.value.Some? {
      SignAtEffect(env, cfg, t, Relative(cfg, task.value.value.path), task.value.value.message);
    }
  }

  lemma SignP2wshSigs(env: Env, lib: Library, cfg: Config, t: TokenState, tx: UnsignedTx, facts: seq<InputFacts>,
                      i: nat)
    requires Ready(cfg, t) && i < |facts| && !IsTaproot(facts[i])
    ensures SigsDone(env, lib, cfg, FederationKey(cfg, t), tx, facts, i, SignP2wsh(env, lib, cfg, t, tx, facts[i], i))
  {
    var task := EcdsaTaskOf(lib, cfg, tx, facts[i], i);
    if task.Ok? && task.value.Some? {
      var k := task.value.value;
      SignAtEffect(env, cfg, t, Relative(cfg, k.path), k.message);
      var s := SignAt(env, cfg, t, Relative(cfg, k.path), k.message);
      if s.res.Ok? {
        OneEcdsaSig(env, lib, cfg, FederationKey(cfg, t), tx, facts, i, s.res.value);
      }
    }
  }

  lemma OneEcdsaSig(env: Env, lib: Library, cfg: Config, fed: Key, tx: UnsignedTx, facts: seq<InputFacts>, i: nat,
                    g: Ecdsa.Signature)
    requires i < |facts| && !IsTaproot(facts[i])
    requires var task := EcdsaTaskOf(lib, cfg, tx, facts[i], i);
             && task.Ok? && task.value.Some?
             && EcdsaBy(env, UsedKey(cfg, fed, task.value.value.path), task.value.value.message, g)
    ensures var k := EcdsaTaskOf(lib, cfg, tx, facts[i], i).value.value;
            var sigs := InputSigs(map[PubKey(true, k.pk) := EcdsaSig(g, k.sighashType)], map[]);
            Sound(env, lib, cfg, fed, tx, facts, i, sigs) && KeysExactly(cfg, facts[i], sigs) && sigs != NOTHING
  {
    var k := EcdsaTaskOf(lib, cfg, tx, facts[i], i).value.value;
    TaskMeaning(lib, cfg, tx, facts[i], i);
    var m := map[PubKey(true, k.pk) := EcdsaSig(g, k.sighashType)];
    assert PubKey(true, k.pk) in m;
  }

  // The effect of one input on the token.
  ghost predicate TokenDone(env: Env, cfg: Config, t: TokenState, f: InputFacts, r: InputRun) {
    && Grows(t, r.st)
    && (r.res.Ok? && NoneFails(env, t, r.st) ==> |r.st.objs| == |t.objs| + InputLeftover(cfg, f))
  }

  // The effect of one input on the PSBT.
  ghost predicate SigsDone(env: Env, lib: Library, cfg: Config, fed: Key, tx: UnsignedTx, facts: seq<InputFacts>,
                           i: nat, r: InputRun)
    requires i < |facts|
  {
    && Sound(env, lib, cfg, fed, tx, facts, i, r.sigs)
    && KeysWithin(cfg, facts[i], r.sigs)
    && (r.res.Ok? ==> KeysExactly(cfg, facts[i], r.sigs))
    && (r.res.Ok? ==> (r.res.value <==> r.sigs != NOTHING))
  }

  // ------------------------------------------------------------------------------------------
  // Taproot inputs
  // ------------------------------------------------------------------------------------------

  lemma {:induction false} SignLeavesEffect(env: Env, lib: Library, cfg: Config, t: TokenState, h: Handle, o: TapOrigin,
                                            c: TapContext, leaves: seq<LeafHash>, k: Key)
    requires Valid(t) && h in t.objs
    requires k == (if env.taproot.ByName? then env.remote(cfg.id, o.path)
                   else if t.objs[h].key.Some? then t.objs[h].key.value else k)
    ensures var l := SignLeaves(env, lib, cfg, t, h, o, c, leaves);
            && Grows(t, l.st) && l.st.objs == t.objs
            && l.sigs.Keys <= LeafKeys(o.xonly, leaves)
            && (l.res.Ok? ==> l.sigs.Keys == LeafKeys(o.xonly, leaves))
            && (forall tk :: tk in l.sigs ==> LeafSigned(env, lib, c, k, tk, l.sigs[tk]))
    decreases |leaves|
  {
    if leaves != [] {
      var a := SignLeaf(env, lib, cfg, t, h, o, c, leaves[0]);
      SignLeafEffect(env, lib, cfg, t, h, o, c, leaves[0], k);
      if a.res.Ok? {
        SignLeavesEffect(env, lib, cfg, a.st, h, o, c, leaves[1..], k);
        GrowsTransitive(t, a.st, SignLeaves(env, lib, cfg, t, h, o, c, leaves).st);
      }
      LeafKeysSplit(o.xonly, leaves);
    }
  }

  ghost predicate LeafSigned(env: Env, lib: Library, c: TapContext, k: Key, tk: TapKey, g: TapSig) {
    && g.sighashType == c.sighashType
    && LeafMessage(lib, c, tk.leaf).Some?
    && SchnorrBy(env, k, LeafMessage(lib, c, tk.leaf).value, g.signature)
  }

  lemma LeafKeysSplit(xonly: XOnly, leaves: seq<LeafHash>)
    requires leaves != []
    ensures LeafKeys(xonly, leaves) == {TapKey(xonly, leaves[0])} + LeafKeys(xonly, leaves[1..])
  {
    assert leaves == [leaves[0]] + leaves[1..];
  }

  lemma SignLeafEffect(env: Env, lib: Library, cfg: Config, t: TokenState, h: Handle, o: TapOrigin, c: TapContext,
                       leaf: LeafHash, k: Key)
    requires Valid(t) && h in t.objs
    requires k == (if env.taproot.ByName? then env.remote(cfg.id, o.path)
                   else if t.objs[h].key.Some? then t.objs[h].key.value else k)
    ensures var l := SignLeaf(env, lib, cfg, t, h, o, c, leaf);
            && Grows(t, l.st) && l.st.objs == t.objs
            && (l.res.Err? ==> l.sigs == map[])
            && (l.res.Ok? ==> l.sigs.Keys == {TapKey(o.xonly, leaf)})
            && (forall tk :: tk in l.sigs ==> LeafSigned(env, lib, c, k, tk, l.sigs[tk]))
  {
    var m := LeafMessage(lib, c, leaf);
    if m.Some? {
      var s := SignSchnorr(env, t, h, cfg.id, o.path, m.value);
      if s.res.Ok? {
        assert s.res.value == env.schnorr(k, m.value, t.ticks);
      }
    }
  }

  // The handle the leaves are signed with, as the derivation leaves it.
  ghost predicate LeafHandle(cfg: Config, t: TokenState, u: TokenState, h: Handle, path: Path)
    requires Ready(cfg, t)
  {
    && |cfg.path| <= |path| && h in u.objs
    && u.objs[h].key == Some(UsedKey(cfg, FederationKey(cfg, t), path))
    && (if Relative(cfg, path) == [] then h == cfg.handle else h !in t.objs)
  }

  lemma SignTapWithToken(env: Env, lib: Library, cfg: Config, t: TokenState, u: TokenState, h: Handle, o: TapOrigin,
                         tx: UnsignedTx, facts: seq<InputFacts>, i: nat)
    requires Ready(cfg, t) && i < |facts| && Grows(t, u) && LeafHandle(cfg, t, u, h, o.path)
    ensures var r := SignTapWith(env, lib, cfg, u, h, o, tx, facts, i);
            && Grows(t, r.st)
            && (r.res.Ok? && NoneFails(env, u, r.st) ==>
                  |r.st.objs| == |u.objs| - if Relative(cfg, o.path) == [] then 0 else 1)
  {
    var c := TapContextOf(lib, tx, facts, i);
    if c.Ok? {
      SignLeavesEffect(env, lib, cfg, u, h, o, c.value, o.leaves,
                       UsedTapKey(env, cfg, FederationKey(cfg, t), o.path));
      var l := SignLeaves(env, lib, cfg, u, h, o, c.value, o.leaves);
      GrowsTransitive(t, u, l.st);
      ReleaseEffect(env, cfg, t, l.st, h);
    }
  }

  lemma SignTapWithSigs(env: Env, lib: Library, cfg: Config, t: TokenState, u: TokenState, h: Handle, tx: UnsignedTx,
                        facts: seq<InputFacts>, i: nat)
    requires Ready(cfg, t) && i < |facts| && IsTaproot(facts[i]) && Grows(t, u)
    requires FindTapOrigin(facts[i].tapOrigins, cfg.fingerprint).Some?
    requires var o := FindTapOrigin(facts[i].tapOrigins, cfg.fingerprint).value;
             o.leaves != [] && LeafHandle(cfg, t, u, h, o.path)
    ensures var o := FindTapOrigin(facts[i].tapOrigins, cfg.fingerprint).value;
            SigsDone(env, lib, cfg, FederationKey(cfg, t), tx, facts, i,
                     SignTapWith(env, lib, cfg, u, h, o, tx, facts, i))
  {
    var o := FindTapOrigin(facts[i].tapOrigins, cfg.fingerprint).value;
    var c := TapContextOf(lib, tx, facts, i);
    if c.Ok? {
      SignLeavesEffect(env, lib, cfg, u, h, o, c.value, o.leaves,
                       UsedTapKey(env, cfg, FederationKey(cfg, t), o.path));
      TapSigs(env, lib, cfg, FederationKey(cfg, t), tx, facts, i,
              SignLeaves(env, lib, cfg, u, h, o, c.value, o.leaves).sigs);
    }
  }

  lemma TapSigs(env: Env, lib: Library, cfg: Config, fed: Key, tx: UnsignedTx, facts: seq<InputFacts>, i: nat,
                sigs: map<TapKey, TapSig>)
    requires i < |facts| && IsTaproot(facts[i]) && TapContextOf(lib, tx, facts, i).Ok?
    requires FindTapOrigin(facts[i].tapOrigins, cfg.fingerprint).Some?
    requires var o := FindTapOrigin(facts[i].tapOrigins, cfg.fingerprint).value;
             var c := TapContextOf(lib, tx, facts, i).value;
             && o.leaves != [] && |cfg.path| <= |o.path| && sigs.Keys <= LeafKeys(o.xonly, o.leaves)
             && (forall tk :: tk in sigs ==> LeafSigned(env, lib, c, UsedTapKey(env, cfg, fed, o.path), tk, sigs[tk]))
    ensures Sound(env, lib, cfg, fed, tx, facts, i, InputSigs(map[], sigs))
    ensures KeysWithin(cfg, facts[i], InputSigs(map[], sigs))
    ensures var o := FindTapOrigin(facts[i].tapOrigins, cfg.fingerprint).value;
            sigs.Keys == LeafKeys(o.xonly, o.leaves) ==>
              KeysExactly(cfg, facts[i], InputSigs(map[], sigs)) && sigs != map[]
  {
    var o := FindTapOrigin(facts[i].tapOrigins, cfg.fingerprint).value;
    TapContextMeaning(lib, tx, facts, i);
    assert TapKey(o.xonly, o.leaves[0]) in LeafKeys(o.xonly, o.leaves);
  }

  lemma SignTaprootToken(env: Env, lib: Library, cfg: Config, t: TokenState, tx: UnsignedTx, facts: seq<InputFacts>,
                         i: nat)
    requires Ready(cfg, t) && i < |facts| && IsTaproot(facts[i])
    ensures TokenDone(env, cfg, t, facts[i], SignTaproot(env, lib, cfg, t, tx, facts, i))
  {
    if Derives(env, cfg, facts[i]) {
      SignTapOriginToken(env, lib, cfg, t, FindTapOrigin(facts[i].tapOrigins, cfg.fingerprint).value, tx, facts, i);
    } else {
      NoDerivation(env, lib, cfg, t, tx, facts, i);
    }
  }

  // A taproot input comes to derive a key.
  predicate Derives(env: Env, cfg: Config, f: InputFacts) {
    var o := FindTapOrigin(f.tapOrigins, cfg.fingerprint);
    o.Some? && o.value.leaves != [] && !env.taproot.NoTaproot? && |cfg.path| <= |o.value.path|
  }

  lemma NoDerivation(env: Env, lib: Library, cfg: Config, t: TokenState, tx: UnsignedTx, facts: seq<InputFacts>, i: nat)
    requires i < |facts| && IsTaproot(facts[i]) && !Derives(env, cfg, facts[i])
    ensures var r := SignTaproot(env, lib, cfg, t, tx, facts, i);
            r.st == t && (r.res.Ok? ==> InputLeftover(cfg, facts[i]) == 0)
  {
  }

  // Deriving the leaf handle, then signing the leaves with it.
  lemma SignTapOriginToken(env: Env, lib: Library, cfg: Config, t: TokenState, o: TapOrigin, tx: UnsignedTx,
                           facts: seq<InputFacts>, i: nat)
    requires Ready(cfg, t) && i < |facts| && |cfg.path| <= |o.path|
    ensures var d := SigningHandle(env, cfg, t, Relative(cfg, o.path));
            && Grows(t, d.st)
            && (d.res.Ok? ==>
                  var r := SignTapWith(env, lib, cfg, d.st, d.res.value, o, tx, facts, i);
                  && Grows(t, r.st)
                  && (r.res.Ok? && NoneFails(env, t, r.st) ==> |r.st.objs| == |t.objs| + Leftover(cfg, o.path)))
  {
    var relative := Relative(cfg, o.path);
    SigningHandleEffect(env, cfg, t, relative);
    var d := SigningHandle(env, cfg, t, relative);
    if d.res.Ok? {
      SignTapWithToken(env, lib, cfg, t, d.st, d.res.value, o, tx, facts, i);
    }
  }

  lemma SignTaprootSigs(env: Env, lib: Library, cfg: Config, t: TokenState, tx: UnsignedTx, facts: seq<InputFacts>,
                        i: nat)
    requires Ready(cfg, t) && i < |facts| && IsTaproot(facts[i])
    ensures SigsDone(env, lib, cfg, FederationKey(cfg, t), tx, facts, i, SignTaproot(env, lib, cfg, t, tx, facts, i))
  {
    var o := FindTapOrigin(facts[i].tapOrigins, cfg.fingerprint);
    if o.Some? && |cfg.path| <= |o.value.path| && o.value.leaves != [] {
      var relative := Relative(cfg, o.value.path);
      SigningHandleEffect(env, cfg, t, relative);
      var d := SigningHandle(env, cfg, t, relative);
      if d.res.Ok? {
        SignTapWithSigs(env, lib, cfg, t, d.st, d.res.value, tx, facts, i);
      }
    }
  }

  // ------------------------------------------------------------------------------------------
  // The loop
  // ------------------------------------------------------------------------------------------

  lemma SignInputToken(env: Env, lib: Library, cfg: Config, t: TokenState, tx: UnsignedTx, facts: seq<InputFacts>,
                       i: nat)
    requires Ready(cfg, t) && i < |facts|
    ensures TokenDone(env, cfg, t, facts[i], SignInput(env, lib, cfg, t, tx, facts, i))
  {
    if IsTaproot(facts[i]) {
      SignTaprootToken(env, lib, cfg, t, tx, facts, i);
    } else {
      SignP2wshToken(env, lib, cfg, t, tx, facts[i], i);
    }
  }

  lemma SignInputSigs(env: Env, lib: Library, cfg: Config, t: TokenState, tx: UnsignedTx, facts: seq<InputFacts>,
                      i: nat)
    requires Ready(cfg, t) && i < |facts|
    ensures SigsDone(env, lib, cfg, FederationKey(cfg, t), tx, facts, i, SignInput(env, lib, cfg, t, tx, facts, i))
  {
    if IsTaproot(facts[i]) {
      SignTaprootSigs(env, lib, cfg, t, tx, facts, i);
    } else {
      SignP2wshSigs(env, lib, cfg, t, tx, facts, i);
    }
  }

  lemma {:induction false} SignFromToken(env: Env, lib: Library, cfg: Config, t: TokenState, tx: UnsignedTx,
                                         facts: seq<InputFacts>, i: nat)
    requires Ready(cfg, t) && i <= |facts|
    ensures var p := SignFrom(env, lib, cfg, t, tx, facts, i);
            && Grows(t, p.st)
            && (p.res.Ok? && NoneFails(env, t, p.st) ==> |p.st.objs| == |t.objs| + TotalLeftover(cfg, facts, i))
    decreases |facts| - i
  {
    if i < |facts| {
      var a := SignInput(env, lib, cfg, t, tx, facts, i);
      SignInputToken(env, lib, cfg, t, tx, facts, i);
      if a.res.Ok? {
        SignFromToken(env, lib, cfg, a.st, tx, facts, i + 1);
        GrowsTransitive(t, a.st, SignFrom(env, lib, cfg, t, tx, facts, i).st);
      }
    }
  }

  // The state in which the loop comes to input j, unless it fails before.
  function StateAt(env: Env, lib: Library, cfg: Config, t: TokenState, tx: UnsignedTx, facts: seq<InputFacts>, i: nat,
                   j: nat): Option<TokenState>
    requires i <= j < |facts|
    decreases j - i
  {
    if i == j then Some(t)
    else
      var a := SignInput(env, lib, cfg, t, tx, facts, i);
      if a.res.Err? then None else StateAt(env, lib, cfg, a.st, tx, facts, i + 1, j)
  }

  lemma {:induction false} StateAtReady(env: Env, lib: Library, cfg: Config, t: TokenState, tx: UnsignedTx,
                                        facts: seq<InputFacts>, i: nat, j: nat)
    requires Ready(cfg, t) && i <= j < |facts|
    ensures var u := StateAt(env, lib, cfg, t, tx, facts, i, j);
            u.Some? ==> Ready(cfg, u.value) && FederationKey(cfg, u.value) == FederationKey(cfg, t)
    decreases j - i
  {
    if i < j {
      var a := SignInput(env, lib, cfg, t, tx, facts, i);
      SignInputToken(env, lib, cfg, t, tx, facts, i);
      if a.res.Ok? {
        StateAtReady(env, lib, cfg, a.st, tx, facts, i + 1, j);
      }
    }
  }

  lemma FirstAdd(env: Env, lib: Library, cfg: Config, t: TokenState, tx: UnsignedTx, facts: seq<InputFacts>, i: nat)
    requires i < |facts|
    ensures SignFrom(env, lib, cfg, t, tx, facts, i).adds[0] == SignInput(env, lib, cfg, t, tx, facts, i).sigs
  {
  }

  lemma LaterAdd(env: Env, lib: Library, cfg: Config, t: TokenState, tx: UnsignedTx, facts: seq<InputFacts>, i: nat,
                 k: nat)
    requires i + 1 + k < |facts|
    ensures var a := SignInput(env, lib, cfg, t, tx, facts, i);
            SignFrom(env, lib, cfg, t, tx, facts, i).adds[k + 1] ==
            if a.res.Err? then NOTHING else SignFrom(env, lib, cfg, a.st, tx, facts, i + 1).adds[k]
  {
  }

  // What signing input j in this state adds; nothing if the loop does not come to it.
  function AddsIn(env: Env, lib: Library, cfg: Config, u: Option<TokenState>, tx: UnsignedTx, facts: seq<InputFacts>,
                  j: nat): InputSigs
    requires j < |facts|
  {
    if u.None? then NOTHING else SignInput(env, lib, cfg, u.value, tx, facts, j).sigs
  }

  // That is what the loop adds to input j.
  lemma {:induction false} AddAt(env: Env, lib: Library, cfg: Config, t: TokenState, tx: UnsignedTx,
                                 facts: seq<InputFacts>, i: nat, j: nat)
    requires i <= j < |facts|
    ensures SignFrom(env, lib, cfg, t, tx, facts, i).adds[j - i]
         == AddsIn(env, lib, cfg, StateAt(env, lib, cfg, t, tx, facts, i, j), tx, facts, j)
    decreases j - i
  {
    if i == j {
      FirstAdd(env, lib, cfg, t, tx, facts, i);
    } else {
      LaterAdd(env, lib, cfg, t, tx, facts, i, j - i - 1);
      LaterState(env, lib, cfg, t, tx, facts, i, j);
      var a := SignInput(env, lib, cfg, t, tx, facts, i);
      if a.res.Ok? {
        AddAt(env, lib, cfg, a.st, tx, facts, i + 1, j);
      }
    }
  }

  lemma LaterState(env: Env, lib: Library, cfg: Config, t: TokenState, tx: UnsignedTx, facts: seq<InputFacts>, i: nat,
                   j: nat)
    requires i < j < |facts|
    ensures var a := SignInput(env, lib, cfg, t, tx, facts, i);
            StateAt(env, lib, cfg, t, tx, facts, i, j) ==
            if a.res.Err? then None else StateAt(env, lib, cfg, a.st, tx, facts, i + 1, j)
  {
  }

  lemma {:induction false} OkReaches(env: Env, lib: Library, cfg: Config, t: TokenState, tx: UnsignedTx,
                                     facts: seq<InputFacts>, i: nat, j: nat)
    requires i <= j < |facts| && SignFrom(env, lib, cfg, t, tx, facts, i).res.Ok?
    ensures var u := StateAt(env, lib, cfg, t, tx, facts, i, j);
            u.Some? && SignInput(env, lib, cfg, u.value, tx, facts, j).res.Ok?
    decreases j - i
  {
    if i < j {
      OkReaches(env, lib, cfg, SignInput(env, lib, cfg, t, tx, facts, i).st, tx, facts, i + 1, j);
    }
  }

  // Every addition of the loop is sound, stays within the keys expected for its input, and when
  // the loop succeeds fills exactly those keys.
  lemma SignFromSigs(env: Env, lib: Library, cfg: Config, t: TokenState, tx: UnsignedTx, facts: seq<InputFacts>, i: nat,
                     j: nat)
    requires Ready(cfg, t) && i <= j < |facts|
    ensures var p := SignFrom(env, lib, cfg, t, tx, facts, i);
            && Sound(env, lib, cfg, FederationKey(cfg, t), tx, facts, j, p.adds[j - i])
            && KeysWithin(cfg, facts[j], p.adds[j - i])
            && (p.res.Ok? ==> KeysExactly(cfg, facts[j], p.adds[j - i]))
  {
    var u := StateAt(env, lib, cfg, t, tx, facts, i, j);
    AddAt(env, lib, cfg, t, tx, facts, i, j);
    StateAtReady(env, lib, cfg, t, tx, facts, i, j);
    if u.Some? {
      SignInputSigs(env, lib, cfg, u.value, tx, facts, j);
    }
    if SignFrom(env, lib, cfg, t, tx, facts, i).res.Ok? {
      OkReaches(env, lib, cfg, t, tx, facts, i, j);
    }
  }

  // The input has an origin of ours to sign for: with taproot data, the first one with our
  // fingerprint lists a leaf; without, any one has it.
  ghost predicate Expects(cfg: Config, f: InputFacts) {
    if f.tapInternalKey.Some? || f.tapScripts != map[] then
      exists k :: 0 <= k < |f.tapOrigins| && f.tapOrigins[k].fingerprint == cfg.fingerprint
                  && f.tapOrigins[k].leaves != []
                  && forall j :: 0 <= j < k ==> f.tapOrigins[j].fingerprint != cfg.fingerprint
    else
      exists o :: o in f.origins && o.fingerprint == cfg.fingerprint
  }

  lemma ExpectsMeaning(cfg: Config, f: InputFacts)
    ensures Expects(cfg, f) <==> EcdsaKeys(cfg, f) != {} || TapKeys(cfg, f) != {}
  {
    FirstOrigin(f.origins, cfg.fingerprint);
    FirstTapOrigin(f.tapOrigins, cfg.fingerprint);
    var o := FindTapOrigin(f.tapOrigins, cfg.fingerprint);
    if o.Some? && o.value.leaves != [] {
      assert TapKey(o.value.xonly, o.value.leaves[0]) in LeafKeys(o.value.xonly, o.value.leaves);
    }
  }

  // The keys named in terms of the two origin maps.
  lemma KeysMeaning(cfg: Config, f: InputFacts)
    ensures f.tapInternalKey.None? && f.tapScripts == map[] ==>
              && TapKeys(cfg, f) == {}
              && (if exists o :: o in f.origins && o.fingerprint == cfg.fingerprint then
                    exists o :: o in f.origins && o.fingerprint == cfg.fingerprint
                                && EcdsaKeys(cfg, f) == {PubKey(true, o.pk)}
                  else EcdsaKeys(cfg, f) == {})
    ensures f.tapInternalKey.Some? || f.tapScripts != map[] ==>
              && EcdsaKeys(cfg, f) == {}
              && (if exists o :: o in f.tapOrigins && o.fingerprint == cfg.fingerprint then
                    exists o :: o in f.tapOrigins && o.fingerprint == cfg.fingerprint
                                && TapKeys(cfg, f) == set l | l in o.leaves :: TapKey(o.xonly, l)
                  else TapKeys(cfg, f) == {})
  {
    FirstOrigin(f.origins, cfg.fingerprint);
    FirstTapOrigin(f.tapOrigins, cfg.fingerprint);
    var o, p := FindOrigin(f.origins, cfg.fingerprint), FindTapOrigin(f.tapOrigins, cfg.fingerprint);
    if IsTaproot(f) && p.Some? {
      assert p.value in f.tapOrigins && TapKeys(cfg, f) == set l | l in p.value.leaves :: TapKey(p.value.xonly, l);
    } else if !IsTaproot(f) && o.Some? {
      assert o.value in f.origins && EcdsaKeys(cfg, f) == {PubKey(true, o.value.pk)};
    }
  }

  // The loop reports a signature iff some input expects one.
  lemma {:induction false} SignFromReports(env: Env, lib: Library, cfg: Config, t: TokenState, tx: UnsignedTx,
                                           facts: seq<InputFacts>, i: nat)
    requires Ready(cfg, t) && i <= |facts|
    ensures var p := SignFrom(env, lib, cfg, t, tx, facts, i);
            p.res.Ok? ==>
              (p.res.value <==> exists j :: i <= j < |facts| && Expects(cfg, facts[j]))
    decreases |facts| - i
  {
    if i < |facts| {
      var a := SignInput(env, lib, cfg, t, tx, facts, i);
      SignInputSigs(env, lib, cfg, t, tx, facts, i);
      SignInputToken(env, lib, cfg, t, tx, facts, i);
      ExpectsMeaning(cfg, facts[i]);
      if a.res.Ok? {
        assert a.sigs == NOTHING <==> a.sigs.ecdsa.Keys == {} && a.sigs.tap.Keys == {};
        SignFromReports(env, lib, cfg, a.st, tx, facts, i + 1);
      }
    }
  }
}
