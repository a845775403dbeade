// Cosigners sign one PSBT in turn, each on its own token: the order does not matter.
module Cosigners {
  import opened Bip32
  import opened Policy
  import opened TokenModel
  import opened PsbtModel
  import opened Signer
  import opened SigningEffect
  import opened SigningTheorems

  // A signer with the token it runs on, in the state it is called in.
  datatype Party = Party(env: Env, lib: Library, cfg: Config, token: TokenState)

  function SignBy(p: Party, psbt: Psbt): Psbt {
    psbt.(inputs := SignTransaction(p.env, p.lib, p.cfg, p.token, psbt).inputs)
  }

  function SignInTurn(ps: seq<Party>, psbt: Psbt): (r: Psbt)
    ensures |r.inputs| == |psbt.inputs|
    decreases |ps|
  {
    if ps == [] then psbt else SignInTurn(ps[1..], SignBy(ps[0], psbt))
  }

  // What the party adds to input i.
  function Adds(p: Party, psbt: Psbt, i: nat): InputSigs
    requires i < |psbt.inputs|
  {
    CallAdds(p.env, p.lib, p.cfg, p.token, psbt)[i]
  }

  ghost predicate AllReady(ps: seq<Party>) {
    forall j :: 0 <= j < |ps| ==> Ready(ps[j].cfg, ps[j].token)
  }

  ghost predicate DifferentFingerprints(ps: seq<Party>) {
    forall j, k :: 0 <= j < k < |ps| ==> ps[j].cfg.fingerprint != ps[k].cfg.fingerprint
  }

  // The origin lists are maps: no key occurs twice.
  ghost predicate OriginKeysUnique(f: InputFacts) {
    && (forall a, b :: a in f.origins && b in f.origins && a.pk == b.pk ==> a == b)
    && (forall a, b :: a in f.tapOrigins && b in f.tapOrigins && a.xonly == b.xonly ==> a == b)
  }

  // No call reads what another writes.
  lemma AddsIgnoreSignatures(p: Party, a: Psbt, b: Psbt, i: nat)
    requires a.tx == b.tx && Facts(a.inputs) == Facts(b.inputs) && i < |a.inputs| == |b.inputs|
    ensures Adds(p, a, i) == Adds(p, b, i)
  {
  }

  // Different fingerprints find different origins, hence fill different keys.
  lemma KeysDisjoint(p: Config, q: Config, f: InputFacts)
    requires p.fingerprint != q.fingerprint && OriginKeysUnique(f)
    ensures EcdsaKeys(p, f) !! EcdsaKeys(q, f) && TapKeys(p, f) !! TapKeys(q, f)
  {
    var a, b := FindOrigin(f.origins, p.fingerprint), FindOrigin(f.origins, q.fingerprint);
    if a.Some? && b.Some? {
      assert a.value != b.value;
    }
    var c, d := FindTapOrigin(f.tapOrigins, p.fingerprint), FindTapOrigin(f.tapOrigins, q.fingerprint);
    if c.Some? && d.Some? {
      assert c.value != d.value;
    }
  }

  // ------------------------------------------------------------------------------------------
  // Merging maps in turn
  // ------------------------------------------------------------------------------------------

  function MergeAll<K, V>(base: map<K, V>, ds: seq<map<K, V>>): map<K, V>
    decreases |ds|
  {
    if ds == [] then base else MergeAll(base + ds[0], ds[1..])
  }

  ghost predicate PairwiseDisjoint<K, V>(ds: seq<map<K, V>>) {
    forall j, k :: 0 <= j < k < |ds| ==> ds[j].Keys !! ds[k].Keys
  }

  // A key of one of the maps has that map's value; any other key is as in the base.
  lemma {:induction false} MergeAllAt<K, V>(base: map<K, V>, ds: seq<map<K, V>>, x: K)
    requires PairwiseDisjoint(ds)
    ensures var m := MergeAll(base, ds);
            && (forall d :: d in ds && x in d ==> x in m && m[x] == d[x])
            && ((forall d :: d in ds ==> x !in d) ==> (x in m <==> x in base) && (x in base ==> m[x] == base[x]))
    decreases |ds|
  {
    if ds != [] {
      var d, rest := ds[0], ds[1..];
      assert ds == [d] + rest;
      MergeAllAt(base + d, rest, x);
      if x in d {
        forall e | e in rest
          ensures x !in e
        {
          var j :| 0 <= j < |rest| && rest[j] == e;
          assert ds[j + 1] == e && ds[0].Keys !! ds[j + 1].Keys;
        }
      }
    }
  }

  lemma MergeAllPermuted<K(!new), V>(base: map<K, V>, ds: seq<map<K, V>>, es: seq<map<K, V>>)
    requires PairwiseDisjoint(ds) && PairwiseDisjoint(es) && forall d :: d in ds <==> d in es
    ensures MergeAll(base, ds) == MergeAll(base, es)
  {
    var a, b := MergeAll(base, ds), MergeAll(base, es);
    forall x: K
      ensures x in a.Keys <==> x in b.Keys
    {
      MergeAllAgree(base, ds, es, x);
    }
    assert a.Keys == b.Keys;
    forall x | x in a.Keys
      ensures a[x] == b[x]
    {
      MergeAllAgree(base, ds, es, x);
    }
  }

  lemma MergeAllAgree<K, V>(base: map<K, V>, ds: seq<map<K, V>>, es: seq<map<K, V>>, x: K)
    requires PairwiseDisjoint(ds) && PairwiseDisjoint(es) && forall d :: d in ds <==> d in es
    ensures var a, b := MergeAll(base, ds), MergeAll(base, es);
            (x in a <==> x in b) && (x in a ==> a[x] == b[x])
  {
    MergeAllAt(base, ds, x);
    MergeAllAt(base, es, x);
    if d :| d in ds && x in d {
      assert d in es;
    } else {
      assert forall d :: d in es ==> x !in d;
    }
  }

  // ------------------------------------------------------------------------------------------
  // Signing in turn is merging in turn
  // ------------------------------------------------------------------------------------------

  function EcdsaAdds(ps: seq<Party>, psbt: Psbt, i: nat): (ds: seq<map<PubKey, EcdsaSig>>)
    requires i < |psbt.inputs|
    ensures |ds| == |ps| && forall j :: 0 <= j < |ps| ==> ds[j] == Adds(ps[j], psbt, i).ecdsa
  {
    seq(|ps|, j requires 0 <= j < |ps| => Adds(ps[j], psbt, i).ecdsa)
  }

  function TapAdds(ps: seq<Party>, psbt: Psbt, i: nat): (ds: seq<map<TapKey, TapSig>>)
    requires i < |psbt.inputs|
    ensures |ds| == |ps| && forall j :: 0 <= j < |ps| ==> ds[j] == Adds(ps[j], psbt, i).tap
  {
    seq(|ps|, j requires 0 <= j < |ps| => Adds(ps[j], psbt, i).tap)
  }

  lemma {:induction false} SignInTurnMerges(ps: seq<Party>, psbt: Psbt, i: nat)
    requires i < |psbt.inputs|
    ensures var a := psbt.inputs[i];
            SignInTurn(ps, psbt).inputs[i] ==
            PsbtInput(a.facts, MergeAll(a.partialSigs, EcdsaAdds(ps, psbt, i)),
                      MergeAll(a.tapScriptSigs, TapAdds(ps, psbt, i)))
    decreases |ps|
  {
    if ps != [] {
      var p, rest := ps[0], ps[1..];
      var next := SignBy(p, psbt);
      SignByAdds(p, psbt, i);
      SignInTurnMerges(rest, next, i);
      forall j | 0 <= j < |rest|
        ensures Adds(rest[j], next, i) == Adds(ps[j + 1], psbt, i)
      {
        AddsIgnoreSignatures(ps[j + 1], psbt, next, i);
      }
      assert EcdsaAdds(ps, psbt, i)[1..] == EcdsaAdds(rest, next, i);
      assert TapAdds(ps, psbt, i)[1..] == TapAdds(rest, next, i);
    }
  }

  lemma SignByAdds(p: Party, psbt: Psbt, i: nat)
    requires i < |psbt.inputs|
    ensures var next := SignBy(p, psbt);
            && next.tx == psbt.tx && Facts(next.inputs) == Facts(psbt.inputs)
            && next.inputs[i] == AddSigs(psbt.inputs[i], Adds(p, psbt, i))
  {
    CallAddsAll(p.env, p.lib, p.cfg, p.token, psbt);
    SameFacts(psbt.inputs, CallAdds(p.env, p.lib, p.cfg, p.token, psbt));
  }

  lemma AddsDisjoint(ps: seq<Party>, psbt: Psbt, i: nat)
    requires AllReady(ps) && DifferentFingerprints(ps) && i < |psbt.inputs| && OriginKeysUnique(psbt.inputs[i].facts)
    ensures PairwiseDisjoint(EcdsaAdds(ps, psbt, i)) && PairwiseDisjoint(TapAdds(ps, psbt, i))
  {
    forall j, k | 0 <= j < k < |ps|
      ensures Adds(ps[j], psbt, i).ecdsa.Keys !! Adds(ps[k], psbt, i).ecdsa.Keys
      ensures Adds(ps[j], psbt, i).tap.Keys !! Adds(ps[k], psbt, i).tap.Keys
    {
      AddsOwnKeys(ps[j], psbt, i);
      AddsOwnKeys(ps[k], psbt, i);
      KeysDisjoint(ps[j].cfg, ps[k].cfg, psbt.inputs[i].facts);
    }
  }

  lemma AddsOwnKeys(p: Party, psbt: Psbt, i: nat)
    requires Ready(p.cfg, p.token) && i < |psbt.inputs|
    ensures KeysWithin(p.cfg, psbt.inputs[i].facts, Adds(p, psbt, i))
  {
    CallAddsDone(p.env, p.lib, p.cfg, p.token, psbt, i);
  }

  lemma SameMembersSameAdds(ps: seq<Party>, qs: seq<Party>, psbt: Psbt, i: nat)
    requires i < |psbt.inputs| && forall p :: p in ps ==> p in qs
    ensures forall d :: d in EcdsaAdds(ps, psbt, i) ==> d in EcdsaAdds(qs, psbt, i)
    ensures forall d :: d in TapAdds(ps, psbt, i) ==> d in TapAdds(qs, psbt, i)
  {
    forall j | 0 <= j < |ps|
      ensures EcdsaAdds(ps, psbt, i)[j] in EcdsaAdds(qs, psbt, i)
      ensures TapAdds(ps, psbt, i)[j] in TapAdds(qs, psbt, i)
    {
      assert ps[j] in qs;
      var k :| 0 <= k < |qs| && qs[k] == ps[j];
      assert EcdsaAdds(qs, psbt, i)[k] == EcdsaAdds(ps, psbt, i)[j];
      assert TapAdds(qs, psbt, i)[k] == TapAdds(ps, psbt, i)[j];
    }
  }

  // Cosigners with pairwise different fingerprints, each on its own token: in whatever order they
  // sign, and whichever of the calls fail, the PSBT they end up with is the same.
  lemma CosignerOrderIrrelevant(ps: seq<Party>, qs: seq<Party>, psbt: Psbt)
    requires multiset(ps) == multiset(qs)
    requires AllReady(ps) && DifferentFingerprints(ps)
    requires forall i :: 0 <= i < |psbt.inputs| ==> OriginKeysUnique(psbt.inputs[i].facts)
    ensures SignInTurn(ps, psbt) == SignInTurn(qs, psbt)
  {
    PermutedParties(ps, qs);
    var a, b := SignInTurn(ps, psbt), SignInTurn(qs, psbt);
    forall i | 0 <= i < |psbt.inputs|
      ensures a.inputs[i] == b.inputs[i]
    {
      SignInTurnMerges(ps, psbt, i);
      SignInTurnMerges(qs, psbt, i);
      AddsDisjoint(ps, psbt, i);
      AddsDisjoint(qs, psbt, i);
      SameMembersSameAdds(ps, qs, psbt, i);
      SameMembersSameAdds(qs, ps, psbt, i);
      MergeAllPermuted(psbt.inputs[i].partialSigs, EcdsaAdds(ps, psbt, i), EcdsaAdds(qs, psbt, i));
      MergeAllPermuted(psbt.inputs[i].tapScriptSigs, TapAdds(ps, psbt, i), TapAdds(qs, psbt, i));
    }
    assert a.inputs == b.inputs;
    SignInTurnTx(ps, psbt);
    SignInTurnTx(qs, psbt);
  }

  lemma {:induction false} SignInTurnTx(ps: seq<Party>, psbt: Psbt)
    ensures SignInTurn(ps, psbt).tx == psbt.tx
    decreases |ps|
  {
    if ps != [] {
      SignInTurnTx(ps[1..], SignBy(ps[0], psbt));
    }
  }

  // A permutation has the same members, and keeps them pairwise different.
  lemma PermutedParties(ps: seq<Party>, qs: seq<Party>)
    requires multiset(ps) == multiset(qs) && AllReady(ps) && DifferentFingerprints(ps)
    ensures forall p :: p in ps <==> p in qs
    ensures AllReady(qs) && DifferentFingerprints(qs)
  {
    forall p
      ensures p in ps <==> p in qs
    {
      assert p in ps <==> p in multiset(ps);
      assert p in qs <==> p in multiset(qs);
    }
    forall j | 0 <= j < |qs|
      ensures Ready(qs[j].cfg, qs[j].token)
    {
      assert qs[j] in ps;
    }
    forall j, k | 0 <= j < k < |qs|
      ensures qs[j].cfg.fingerprint != qs[k].cfg.fingerprint
    {
      assert qs[j] in ps && qs[k] in ps;
      var x :| 0 <= x < |ps| && ps[x] == qs[j];
      var y :| 0 <= y < |ps| && ps[y] == qs[k];
      if qs[j].cfg.fingerprint == qs[k].cfg.fingerprint {
        assert x == y;
        TwiceInMultiset(qs, j, k);
        OnceInMultiset(ps, x);
        assert false;
      }
    }
  }

  lemma TwiceInMultiset(s: seq<Party>, j: nat, k: nat)
    requires j < k < |s| && s[j] == s[k]
    ensures multiset(s)[s[j]] >= 2
  {
    assert s == s[..k] + [s[k]] + s[k + 1..];
    assert s[j] in s[..k];
    assert multiset(s[..k])[s[j]] >= 1;
  }

  lemma OnceInMultiset(s: seq<Party>, j: nat)
    requires j < |s| && DifferentFingerprints(s)
    ensures multiset(s)[s[j]] == 1
  {
    assert s == s[..j] + [s[j]] + s[j + 1..];
    assert s[j] !in s[..j] && s[j] !in s[j + 1..];
    assert multiset(s[..j])[s[j]] == 0 && multiset(s[j + 1..])[s[j]] == 0;
  }

  // ------------------------------------------------------------------------------------------
  // What the PSBT holds in the end
  // ------------------------------------------------------------------------------------------

  // The call of party j, in its turn, succeeded.
  ghost predicate Succeeded(ps: seq<Party>, psbt: Psbt, j: nat)
    requires j < |ps|
  {
    SignTransaction(ps[j].env, ps[j].lib, ps[j].cfg, ps[j].token, SignInTurn(ps[..j], psbt)).res.Ok?
  }

  lemma {:induction false} InTurnFacts(ps: seq<Party>, psbt: Psbt)
    ensures var r := SignInTurn(ps, psbt);
            r.tx == psbt.tx && Facts(r.inputs) == Facts(psbt.inputs)
    decreases |ps|
  {
    if ps != [] {
      var next := SignBy(ps[0], psbt);
      CallAddsAll(ps[0].env, ps[0].lib, ps[0].cfg, ps[0].token, psbt);
      SameFacts(psbt.inputs, CallAdds(ps[0].env, ps[0].lib, ps[0].cfg, ps[0].token, psbt));
      InTurnFacts(ps[1..], next);
    }
  }

  // Whether a call succeeds does not depend on the signatures it finds either.
  lemma VerdictIgnoresSignatures(p: Party, a: Psbt, b: Psbt)
    requires a.tx == b.tx && Facts(a.inputs) == Facts(b.inputs) && |a.inputs| == |b.inputs|
    ensures SignTransaction(p.env, p.lib, p.cfg, p.token, a).res == SignTransaction(p.env, p.lib, p.cfg, p.token, b).res
  {
  }

  lemma SucceededAtOnce(ps: seq<Party>, psbt: Psbt, j: nat)
    requires j < |ps| && Succeeded(ps, psbt, j)
    ensures SignTransaction(ps[j].env, ps[j].lib, ps[j].cfg, ps[j].token, psbt).res.Ok?
  {
    InTurnFacts(ps[..j], psbt);
    VerdictIgnoresSignatures(ps[j], SignInTurn(ps[..j], psbt), psbt);
  }

  // Nobody's signatures are lost: whatever the others did before and after, the final PSBT holds
  // a signature of every cosigner whose call succeeded, under each of its keys.
  lemma EveryCosignerSigned(ps: seq<Party>, psbt: Psbt, i: nat, j: nat)
    requires AllReady(ps) && DifferentFingerprints(ps) && i < |psbt.inputs| && OriginKeysUnique(psbt.inputs[i].facts)
    requires j < |ps| && Succeeded(ps, psbt, j)
    ensures var p := ps[j];
            OursSigned(p.env, p.lib, p.cfg, FederationKey(p.cfg, p.token), psbt.tx, Facts(psbt.inputs), i,
                       SignInTurn(ps, psbt).inputs[i])
  {
    var p := ps[j];
    SucceededAtOnce(ps, psbt, j);
    CallAddsDone(p.env, p.lib, p.cfg, p.token, psbt, i);
    AddsSurvive(ps, psbt, i, j);
    HeldIsSigned(p.env, p.lib, p.cfg, FederationKey(p.cfg, p.token), psbt.tx, Facts(psbt.inputs), i,
                 Adds(p, psbt, i), SignInTurn(ps, psbt).inputs[i]);
  }

  ghost predicate Holds(r: PsbtInput, s: InputSigs) {
    && (forall pk :: pk in s.ecdsa ==> pk in r.partialSigs && r.partialSigs[pk] == s.ecdsa[pk])
    && (forall tk :: tk in s.tap ==> tk in r.tapScriptSigs && r.tapScriptSigs[tk] == s.tap[tk])
  }

  lemma HeldIsSigned(env: Env, lib: Library, cfg: Config, fed: Key, tx: UnsignedTx, facts: seq<InputFacts>, i: nat,
                     s: InputSigs, r: PsbtInput)
    requires i < |facts| && Sound(env, lib, cfg, fed, tx, facts, i, s) && KeysExactly(cfg, facts[i], s) && Holds(r, s)
    ensures OursSigned(env, lib, cfg, fed, tx, facts, i, r)
  {
  }

  lemma AddsSurvive(ps: seq<Party>, psbt: Psbt, i: nat, j: nat)
    requires AllReady(ps) && DifferentFingerprints(ps) && i < |psbt.inputs| && OriginKeysUnique(psbt.inputs[i].facts)
    requires j < |ps|
    ensures Holds(SignInTurn(ps, psbt).inputs[i], Adds(ps[j], psbt, i))
  {
    SignInTurnMerges(ps, psbt, i);
    AddsDisjoint(ps, psbt, i);
    var r, s := SignInTurn(ps, psbt).inputs[i], Adds(ps[j], psbt, i);
    forall pk | pk in s.ecdsa
      ensures pk in r.partialSigs && r.partialSigs[pk] == s.ecdsa[pk]
    {
      assert EcdsaAdds(ps, psbt, i)[j] == s.ecdsa;
      MergeAllAt(psbt.inputs[i].partialSigs, EcdsaAdds(ps, psbt, i), pk);
    }
    forall tk | tk in s.tap
      ensures tk in r.tapScriptSigs && r.tapScriptSigs[tk] == s.tap[tk]
    {
      assert TapAdds(ps, psbt, i)[j] == s.tap;
      MergeAllAt(psbt.inputs[i].tapScriptSigs, TapAdds(ps, psbt, i), tk);
    }
  }

  ghost predicate HasOrigin(cfg: Config, f: InputFacts) {
    exists o :: o in f.origins && o.fingerprint == cfg.fingerprint
  }

  // The cosigners whose calls succeeded and who have a key on the P2WSH input.
  ghost function Signers(ps: seq<Party>, psbt: Psbt, f: InputFacts): set<nat> {
    set j: nat | j < |ps| && Succeeded(ps, psbt, j) && HasOrigin(ps[j].cfg, f)
  }

  // What the threshold is stated for: ready cosigners with different fingerprints, and a P2WSH
  // input.
  ghost predicate MultisigInput(ps: seq<Party>, psbt: Psbt, i: nat) {
    && AllReady(ps) && DifferentFingerprints(ps) && i < |psbt.inputs|
    && OriginKeysUnique(psbt.inputs[i].facts)
    && psbt.inputs[i].facts.tapInternalKey.None? && psbt.inputs[i].facts.tapScripts == map[]
  }

  // The key a cosigner signs with.
  ghost function KeyOf(cfg: Config, f: InputFacts): PubKey
    requires HasOrigin(cfg, f)
  {
    FirstOrigin(f.origins, cfg.fingerprint);
    PubKey(true, FindOrigin(f.origins, cfg.fingerprint).value.pk)
  }

  ghost function KeyMap(ps: seq<Party>, f: InputFacts, chosen: set<nat>): (m: map<nat, PubKey>)
    requires forall j :: j in chosen ==> j < |ps| && HasOrigin(ps[j].cfg, f)
    ensures m.Keys == chosen && forall j :: j in m ==> m[j] == KeyOf(ps[j].cfg, f)
  {
    map j | j in chosen :: KeyOf(ps[j].cfg, f)
  }

  lemma KeyHeld(ps: seq<Party>, psbt: Psbt, i: nat, j: nat)
    requires MultisigInput(ps, psbt, i) && j in Signers(ps, psbt, psbt.inputs[i].facts)
    ensures KeyOf(ps[j].cfg, psbt.inputs[i].facts) in SignInTurn(ps, psbt).inputs[i].partialSigs
  {
    EveryCosignerSigned(ps, psbt, i, j);
    KeyIsOurs(ps[j].cfg, psbt.inputs[i].facts);
  }

  lemma KeyIsOurs(cfg: Config, f: InputFacts)
    requires HasOrigin(cfg, f) && f.tapInternalKey.None? && f.tapScripts == map[]
    ensures KeyOf(cfg, f) in EcdsaKeys(cfg, f)
  {
    FirstOrigin(f.origins, cfg.fingerprint);
  }

  lemma KeysDiffer(p: Config, q: Config, f: InputFacts)
    requires p.fingerprint != q.fingerprint && OriginKeysUnique(f) && HasOrigin(p, f) && HasOrigin(q, f)
    ensures KeyOf(p, f) != KeyOf(q, f)
  {
    FirstOrigin(f.origins, p.fingerprint);
    FirstOrigin(f.origins, q.fingerprint);
  }

  lemma KeyMapInjective(ps: seq<Party>, f: InputFacts, chosen: set<nat>)
    requires forall j :: j in chosen ==> j < |ps| && HasOrigin(ps[j].cfg, f)
    requires DifferentFingerprints(ps) && OriginKeysUnique(f)
    ensures var m := KeyMap(ps, f, chosen);
            forall j, k :: j in m && k in m && j != k ==> m[j] != m[k]
  {
    forall j, k | j in chosen && k in chosen && j < k
      ensures KeyOf(ps[j].cfg, f) != KeyOf(ps[k].cfg, f)
    {
      KeysDiffer(ps[j].cfg, ps[k].cfg, f);
    }
  }

  // So the signatures on an input are at least as many as the cosigners that succeeded: m of
  // them meet a threshold of m.
  lemma ThresholdMet(ps: seq<Party>, psbt: Psbt, i: nat)
    requires MultisigInput(ps, psbt, i)
    ensures |SignInTurn(ps, psbt).inputs[i].partialSigs| >= |Signers(ps, psbt, psbt.inputs[i].facts)|
  {
    var f := psbt.inputs[i].facts;
    var chosen := Signers(ps, psbt, f);
    forall j | j in chosen {
      KeyHeld(ps, psbt, i, j);
    }
    KeyMapInjective(ps, f, chosen);
    InjectiveSize(KeyMap(ps, f, chosen), SignInTurn(ps, psbt).inputs[i].partialSigs.Keys);
  }

  // Different keys for different indices: at least as many keys as indices.
  lemma {:induction false} InjectiveSize<K>(m: map<nat, K>, all: set<K>)
    requires forall j :: j in m ==> m[j] in all
    requires forall j, k :: j in m && k in m && j != k ==> m[j] != m[k]
    ensures |all| >= |m.Keys|
    decreases |m.Keys|
  {
    if m.Keys != {} {
      var j :| j in m;
      var rest := m - {j};
      assert rest.Keys == m.Keys - {j};
      InjectiveSize(rest, all - {m[j]});
    }
  }
}
