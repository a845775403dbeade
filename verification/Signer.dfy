// Signing a PSBT: the taproot and P2WSH paths, the loop over the inputs, and the call.
module Signer {
  import opened Results
  import opened Bip32
  import opened Policy
  import opened TokenModel
  import opened Store
  import opened SigRate
  import opened Backend
  import opened PsbtModel
  import Ecdsa

  // What a signer is built with; `handle` is the federation key, `path` the federation path.
  datatype Config = Config(id: string, fingerprint: nat, path: Path, network: Network, handle: Handle)

  // ------------------------------------------------------------------------------------------
  // One key, one message
  // ------------------------------------------------------------------------------------------

  // The federation handle itself, or a session-scoped child of it.
  function SigningHandle(env: Env, cfg: Config, t: TokenState, relative: Path): Ran<Handle> {
    if relative == [] then Ran(Ok(cfg.handle), t) else DerivePath(env, t, cfg.handle, relative)
  }

  // Destroying a derived handle is best effort.
  function Release(env: Env, cfg: Config, t: TokenState, h: Handle): TokenState {
    if h != cfg.handle then Destroy(env, t, h).st else t
  }

  function SignEcdsa(env: Env, t: TokenState, h: Handle, msg: Message): Ran<Ecdsa.Signature> {
    if !env.segwit then Ran(Err(NoSegwitSigner), t)
    else
      var raw := SignRaw(env, t, h, msg);
      Ran(if raw.res.Err? then Err(raw.res.error) else Ecdsa.FromToken(raw.res.value), raw.st)
  }

  // Derive, sign, destroy, then look at the signature: a signature that failed still destroys.
  function SignAt(env: Env, cfg: Config, t: TokenState, relative: Path, msg: Message): Ran<Ecdsa.Signature> {
    var d := SigningHandle(env, cfg, t, relative);
    if d.res.Err? then Ran(Err(d.res.error), d.st)
    else
      var s := SignEcdsa(env, d.st, d.res.value, msg);
      Ran(if s.res.Ok? then Ok(Ecdsa.NormalizeS(s.res.value)) else s.res, Release(env, cfg, s.st, d.res.value))
  }

  // ------------------------------------------------------------------------------------------
  // P2WSH inputs
  // ------------------------------------------------------------------------------------------

  datatype EcdsaTask = EcdsaTask(pk: Point, path: Path, message: Message, sighashType: u32)

  // What there is to sign on a P2WSH input, or why it cannot be signed. All of it is decided
  // before the token is called.
  function EcdsaTaskOf(lib: Library, cfg: Config, tx: UnsignedTx, f: InputFacts, i: nat): (r: Result<Option<EcdsaTask>>)
    ensures r.Ok? ==> (r.value.None? <==> FindOrigin(f.origins, cfg.fingerprint).None?)
    ensures r.Ok? && r.value.Some? ==>
              var o := FindOrigin(f.origins, cfg.fingerprint).value;
              r.value.value.pk == o.pk && r.value.value.path == o.path && |cfg.path| <= |o.path|
  {
    var o := FindOrigin(f.origins, cfg.fingerprint);
    if o.None? then Ok(None)
    else if |o.value.path| < |cfg.path| then Err(PathTooShort(i))
    else
      var ty := if f.sighashType.None? then Some(SIGHASH_ALL) else lib.ecdsaType(f.sighashType.value);
      if ty.None? then Err(BadSighashType(i))
      else if f.witnessScript.None? then Err(MissingWitnessScript(i))
      else if f.witnessUtxo.None? then Err(MissingWitnessUtxo(i))
      else
        var m := lib.p2wsh(tx, i, f.witnessScript.value, f.witnessUtxo.value.value, ty.value);
        if m.None? then Err(SighashFailure(i))
        else Ok(Some(EcdsaTask(o.value.pk, o.value.path, m.value, ty.value)))
  }

  // The message is the P2WSH sighash of this very input: its index, its script, its value, its
  // sighash type.
  lemma TaskMeaning(lib: Library, cfg: Config, tx: UnsignedTx, f: InputFacts, i: nat)
    ensures var r := EcdsaTaskOf(lib, cfg, tx, f, i);
            r.Ok? && r.value.Some? ==>
              && EcdsaTypeOf(lib, f) == Some(r.value.value.sighashType)
              && f.witnessScript.Some? && f.witnessUtxo.Some?
              && lib.p2wsh(tx, i, f.witnessScript.value, f.witnessUtxo.value.value, r.value.value.sighashType)
                 == Some(r.value.value.message)
  {
  }

  datatype InputRun = InputRun(res: Result<bool>, st: TokenState, sigs: InputSigs)

  function SignP2wsh(env: Env, lib: Library, cfg: Config, t: TokenState, tx: UnsignedTx, f: InputFacts,
                     i: nat): InputRun {
    var task := EcdsaTaskOf(lib, cfg, tx, f, i);
    if task.Err? then InputRun(Err(task.error), t, NOTHING)
    else if task.value.None? then InputRun(Ok(false), t, NOTHING)
    else
      var k := task.value.value;
      var s := SignAt(env, cfg, t, k.path[|cfg.path|..], k.message);
      if s.res.Err? then InputRun(Err(s.res.error), s.st, NOTHING)
      else
        InputRun(Ok(true), s.st, InputSigs(map[PubKey(true, k.pk) := EcdsaSig(s.res.value, k.sighashType)], map[]))
  }

  // ------------------------------------------------------------------------------------------
  // Taproot inputs
  // ------------------------------------------------------------------------------------------

  // What a leaf's sighash is computed from besides the leaf.
  datatype TapContext = TapContext(tx: UnsignedTx, input: nat, prevouts: seq<TxOut>, sighashType: u32)

  function TapContextOf(lib: Library, tx: UnsignedTx, facts: seq<InputFacts>, i: nat): Result<TapContext>
    requires i < |facts|
  {
    var p := Prevouts(facts, 0);
    if p.Err? then Err(p.error)
    else
      var f := facts[i];
      var ty := if f.sighashType.None? then Some(TAP_DEFAULT) else lib.tapType(f.sighashType.value);
      if ty.None? then Err(BadSighashType(i)) else Ok(TapContext(tx, i, p.value, ty.value))
  }

  function LeafMessage(lib: Library, c: TapContext, leaf: LeafHash): Option<Message> {
    lib.tapscript(c.tx, c.input, c.prevouts, leaf, c.sighashType)
  }

  // The sighash of a leaf is that of this very input: its index, all outputs the transaction
  // spends in the order of the inputs, the leaf, and the input's sighash type.
  lemma TapContextMeaning(lib: Library, tx: UnsignedTx, facts: seq<InputFacts>, i: nat)
    requires i < |facts|
    ensures var c := TapContextOf(lib, tx, facts, i);
            && (c.Ok? <==> AllSpent(facts) && TapTypeOf(lib, facts[i]).Some?)
            && (c.Ok? ==>
                  && TapTypeOf(lib, facts[i]) == Some(c.value.sighashType)
                  && forall leaf :: LeafMessage(lib, c.value, leaf)
                                 == lib.tapscript(tx, i, SpentOutputs(facts), leaf, c.value.sighashType))
  {
    PrevoutsMeaning(facts);
  }

  datatype LeafRun = LeafRun(res: Result<()>, st: TokenState, sigs: map<TapKey, TapSig>)

  function SignLeaf(env: Env, lib: Library, cfg: Config, t: TokenState, h: Handle, o: TapOrigin, c: TapContext,
                    leaf: LeafHash): LeafRun {
    var m := LeafMessage(lib, c, leaf);
    if m.None? then LeafRun(Err(SighashFailure(c.input)), t, map[])
    else
      var s := SignSchnorr(env, t, h, cfg.id, o.path, m.value);
      if s.res.Err? then LeafRun(Err(s.res.error), s.st, map[])
      else LeafRun(Ok(()), s.st, map[TapKey(o.xonly, leaf) := TapSig(s.res.value, c.sighashType)])
  }

  function SignLeaves(env: Env, lib: Library, cfg: Config, t: TokenState, h: Handle, o: TapOrigin, c: TapContext,
                      leaves: seq<LeafHash>): LeafRun
    decreases |leaves|
  {
    if leaves == [] then LeafRun(Ok(()), t, map[])
    else
      var a := SignLeaf(env, lib, cfg, t, h, o, c, leaves[0]);
      if a.res.Err? then a
      else
        var b := SignLeaves(env, lib, cfg, a.st, h, o, c, leaves[1..]);
        LeafRun(b.res, b.st, a.sigs + b.sigs)
  }

  // The part after the handle is derived. An error here leaves the derived handle on the token.
  function SignTapWith(env: Env, lib: Library, cfg: Config, t: TokenState, h: Handle, o: TapOrigin, tx: UnsignedTx,
                       facts: seq<InputFacts>, i: nat): InputRun
    requires i < |facts|
  {
    var c := TapContextOf(lib, tx, facts, i);
    if c.Err? then InputRun(Err(c.error), t, NOTHING)
    else
      var l := SignLeaves(env, lib, cfg, t, h, o, c.value, o.leaves);
      if l.res.Err? then InputRun(Err(l.res.error), l.st, InputSigs(map[], l.sigs))
      else InputRun(Ok(true), Release(env, cfg, l.st, h), InputSigs(map[], l.sigs))
  }

  function SignTaproot(env: Env, lib: Library, cfg: Config, t: TokenState, tx: UnsignedTx, facts: seq<InputFacts>,
                       i: nat): InputRun
    requires i < |facts|
  {
    var o := FindTapOrigin(facts[i].tapOrigins, cfg.fingerprint);
    if o.None? || o.value.leaves == [] then InputRun(Ok(false), t, NOTHING)
    else if env.taproot.NoTaproot? then InputRun(Err(NoTaprootSigner), t, NOTHING)
    else if |o.value.path| < |cfg.path| then InputRun(Err(PathTooShort(i)), t, NOTHING)
    else
      var d := SigningHandle(env, cfg, t, o.value.path[|cfg.path|..]);
      if d.res.Err? then InputRun(Err(d.res.error), d.st, NOTHING)
      else SignTapWith(env, lib, cfg, d.st, d.res.value, o.value, tx, facts, i)
  }

  // ------------------------------------------------------------------------------------------
  // The loop and the call
  // ------------------------------------------------------------------------------------------

  function SignInput(env: Env, lib: Library, cfg: Config, t: TokenState, tx: UnsignedTx, facts: seq<InputFacts>,
                     i: nat): InputRun
    requires i < |facts|
  {
    if IsTaproot(facts[i]) then SignTaproot(env, lib, cfg, t, tx, facts, i)
    else SignP2wsh(env, lib, cfg, t, tx, facts[i], i)
  }

  // `adds` has one entry per input from i on, empty past the input that failed.
  datatype Plan = Plan(res: Result<bool>, st: TokenState, adds: seq<InputSigs>)

  function SignFrom(env: Env, lib: Library, cfg: Config, t: TokenState, tx: UnsignedTx, facts: seq<InputFacts>,
                    i: nat): (p: Plan)
    requires i <= |facts|
    ensures |p.adds| == |facts| - i
    decreases |facts| - i
  {
    if i == |facts| then Plan(Ok(false), t, [])
    else
      var a := SignInput(env, lib, cfg, t, tx, facts, i);
      if a.res.Err? then Plan(a.res, a.st, [a.sigs] + Blank(|facts| - i - 1))
      else Prepend(a, SignFrom(env, lib, cfg, a.st, tx, facts, i + 1))
  }

  function Prepend(a: InputRun, rest: Plan): Plan
    requires a.res.Ok?
  {
    Plan(if rest.res.Ok? then Ok(a.res.value || rest.res.value) else rest.res, rest.st, [a.sigs] + rest.adds)
  }

  // `recorded` is the timestamp an Ok call added to the sig-rate counter, if it added one.
  datatype Call = Call(res: Result<()>, recorded: Option<nat>, st: TokenState, inputs: seq<PsbtInput>)

  // The rate check comes after the loop: whatever it says, the signatures stay in the PSBT.
  function FinishCall(env: Env, cfg: Config, policy: HsmPolicy, p: Plan, inputs: seq<PsbtInput>): (c: Call)
    requires |p.adds| == |inputs|
    ensures |c.inputs| == |inputs| && c.inputs == AddAll(inputs, p.adds)
  {
    var signed := AddAll(inputs, p.adds);
    if p.res.Err? then Call(Err(p.res.error), None, p.st, signed)
    else if !p.res.value then Call(Ok(()), None, p.st, signed)
    else
      var r := CheckAndRecord(env, p.st, cfg.id, policy);
      if r.res.Err? then Call(Err(r.res.error), None, r.st, signed) else Call(Ok(()), r.res.value, r.st, signed)
  }

  function SignUnder(env: Env, lib: Library, cfg: Config, t: TokenState, policy: HsmPolicy, psbt: Psbt): (c: Call)
    ensures |c.inputs| == |psbt.inputs|
  {
    var v := Verdict(policy, psbt.tx, cfg.network);
    if v.Err? then Call(Err(v.error), None, t, psbt.inputs)
    else FinishCall(env, cfg, policy, SignFrom(env, lib, cfg, t, psbt.tx, Facts(psbt.inputs), 0), psbt.inputs)
  }

  function SignTransaction(env: Env, lib: Library, cfg: Config, t: TokenState, psbt: Psbt): (c: Call)
    ensures |c.inputs| == |psbt.inputs|
  {
    var l := LoadPolicy(env, t, cfg.id);
    if l.res.Err? then Call(Err(l.res.error), None, l.st, psbt.inputs)
    else SignUnder(env, lib, cfg, l.st, l.res.value, psbt)
  }

  // ------------------------------------------------------------------------------------------
  // The code
  // ------------------------------------------------------------------------------------------

  class Pkcs11Signer {
    const lib: Library
    const cfg: Config
    const session: Token

    constructor (lib: Library, cfg: Config, session: Token)
      ensures this.lib == lib && this.cfg == cfg && this.session == session
    {
      this.lib, this.cfg, this.session := lib, cfg, session;
    }

    method ChooseHandle(relative: Path) returns (r: Result<Handle>)
      modifies session
      ensures Ran(r, session.State()) == SigningHandle(session.env, cfg, old(session.State()), relative)
    {
      if relative == [] {
        return Ok(cfg.handle);
      }
      r := DeriveAlong(session, cfg.handle, relative);
    }

    method Cleanup(h: Handle)
      modifies session
      ensures session.State() == Release(session.env, cfg, old(session.State()), h)
    {
      if h != cfg.handle {
        var _ := session.DestroyObject(h);
      }
    }

    method SignWithLowS(h: Handle, msg: Message) returns (r: Result<Ecdsa.Signature>)
      modifies session
      ensures Ran(r, session.State()) == SignEcdsa(session.env, old(session.State()), h, msg)
    {
      if !session.env.segwit {
        return Err(NoSegwitSigner);
      }
      var raw := session.Sign(h, msg);
      if raw.Err? {
        return Err(raw.error);
      }
      if |raw.value| != 64 {
        return Err(BadSignatureLength);
      }
      var parsed := Ecdsa.FromCompact(raw.value);
      if parsed.None? {
        return Err(BadCompactSignature);
      }
      var sig := parsed.value;
      sig := Ecdsa.NormalizeS(sig);
      return Ok(sig);
    }

    method SignDigest(relative: Path, msg: Message) returns (r: Result<Ecdsa.Signature>)
      modifies session
      ensures Ran(r, session.State()) == SignAt(session.env, cfg, old(session.State()), relative, msg)
    {
      var d := ChooseHandle(relative);
      if d.Err? {
        return Err(d.error);
      }
      var signResult := SignWithLowS(d.value, msg);
      Cleanup(d.value);
      if signResult.Err? {
        return signResult;
      }
      var sig := signResult.value;
      sig := Ecdsa.NormalizeS(sig);
      return Ok(sig);
    }

    // The P2WSH branch of `sign_transaction`.
    method SignP2wshInput(psbt: PsbtDocument, i: nat) returns (r: Result<bool>)
      requires i < |psbt.inputs|
      modifies session, psbt
      ensures var run := SignP2wsh(session.env, lib, cfg, old(session.State()), psbt.tx, old(psbt.inputs)[i].facts, i);
              && r == run.res && session.State() == run.st
              && psbt.inputs == old(psbt.inputs)[i := AddSigs(old(psbt.inputs)[i], run.sigs)]
    {
      var f := psbt.inputs[i].facts;
      assert psbt.inputs[i := AddSigs(psbt.inputs[i], NOTHING)] == psbt.inputs by { AddNothing(psbt.inputs[i]); }
      var origin := FindOrigin(f.origins, cfg.fingerprint);
      if origin.None? {
        return Ok(false);
      }
      if |origin.value.path| < |cfg.path| {
        return Err(PathTooShort(i));
      }
      var relative := origin.value.path[|cfg.path|..];
      var ty := SIGHASH_ALL;
      if f.sighashType.Some? {
        var decoded := lib.ecdsaType(f.sighashType.value);
        if decoded.None? {
          return Err(BadSighashType(i));
        }
        ty := decoded.value;
      }
      if f.witnessScript.None? {
        return Err(MissingWitnessScript(i));
      }
      if f.witnessUtxo.None? {
        return Err(MissingWitnessUtxo(i));
      }
      var msg := lib.p2wsh(psbt.tx, i, f.witnessScript.value, f.witnessUtxo.value.value, ty);
      if msg.None? {
        return Err(SighashFailure(i));
      }
      var sig := SignDigest(relative, msg.value);
      if sig.Err? {
        return Err(sig.error);
      }
      var pk := PubKey(true, origin.value.pk);
      psbt.inputs := psbt.inputs[i := psbt.inputs[i].(
        partialSigs := psbt.inputs[i].partialSigs[pk := EcdsaSig(sig.value, ty)])];
      assert psbt.inputs[i] == AddSigs(old(psbt.inputs)[i], InputSigs(map[pk := EcdsaSig(sig.value, ty)], map[]));
      return Ok(true);
    }

    method SignTaprootInput(psbt: PsbtDocument, i: nat) returns (r: Result<bool>)
      requires i < |psbt.inputs|
      modifies session, psbt
      ensures var run := SignTaproot(session.env, lib, cfg, old(session.State()), psbt.tx, Facts(old(psbt.inputs)), i);
              && r == run.res && session.State() == run.st
              && psbt.inputs == old(psbt.inputs)[i := AddSigs(old(psbt.inputs)[i], run.sigs)]
    {
      ghost var facts := Facts(psbt.inputs);
      var f := psbt.inputs[i].facts;
      assert psbt.inputs[i := AddSigs(psbt.inputs[i], NOTHING)] == psbt.inputs by { AddNothing(psbt.inputs[i]); }
      var ours := FindTapOrigin(f.tapOrigins, cfg.fingerprint);
      if ours.None? {
        return Ok(false);
      }
      var o := ours.value;
      if o.leaves == [] {
        return Ok(false);
      }
      if session.env.taproot.NoTaproot? {
        return Err(NoTaprootSigner);
      }
      if |o.path| < |cfg.path| {
        return Err(PathTooShort(i));
      }
      var d := ChooseHandle(o.path[|cfg.path|..]);
      if d.Err? {
        return Err(d.error);
      }
      r := SignTapLeaves(psbt, i, d.value, o);
    }

    method SignTapLeaves(psbt: PsbtDocument, i: nat, h: Handle, o: TapOrigin) returns (r: Result<bool>)
      requires i < |psbt.inputs| && o.leaves != []
      modifies session, psbt
      ensures var run := SignTapWith(session.env, lib, cfg, old(session.State()), h, o, psbt.tx,
                                     Facts(old(psbt.inputs)), i);
              && r == run.res && session.State() == run.st
              && psbt.inputs == old(psbt.inputs)[i := AddSigs(old(psbt.inputs)[i], run.sigs)]
    {
      assert psbt.inputs[i := AddSigs(psbt.inputs[i], NOTHING)] == psbt.inputs by { AddNothing(psbt.inputs[i]); }
      var context := ReadTapContext(psbt, i);
      if context.Err? {
        return Err(context.error);
      }
      r := SignAllLeaves(psbt, i, h, o, context.value);
      if r.Ok? {
        Cleanup(h);
      }
    }

    // All prevouts and the sighash type.
    method ReadTapContext(psbt: PsbtDocument, i: nat) returns (r: Result<TapContext>)
      requires i < |psbt.inputs|
      ensures r == TapContextOf(lib, psbt.tx, Facts(psbt.inputs), i)
    {
      PrevoutsMeaning(Facts(psbt.inputs));
      var prevouts: seq<TxOut> := [];
      for k := 0 to |psbt.inputs|
        invariant |prevouts| == k
        invariant forall j :: 0 <= j < k ==> psbt.inputs[j].facts.witnessUtxo == Some(prevouts[j])
      {
        var utxo := psbt.inputs[k].facts.witnessUtxo;
        if utxo.None? {
          assert AllSpent(Facts(psbt.inputs)[..k]);
          return Err(MissingWitnessUtxo(k));
        }
        prevouts := prevouts + [utxo.value];
      }
      assert prevouts == SpentOutputs(Facts(psbt.inputs));
      var ty := TAP_DEFAULT;
      if psbt.inputs[i].facts.sighashType.Some? {
        var decoded := lib.tapType(psbt.inputs[i].facts.sighashType.value);
        if decoded.None? {
          return Err(BadSighashType(i));
        }
        ty := decoded.value;
      }
      return Ok(TapContext(psbt.tx, i, prevouts, ty));
    }

    // The loop over the leaves.
    method SignAllLeaves(psbt: PsbtDocument, i: nat, h: Handle, o: TapOrigin, c: TapContext) returns (r: Result<bool>)
      requires i < |psbt.inputs|
      modifies session, psbt
      ensures var run := SignLeaves(session.env, lib, cfg, old(session.State()), h, o, c, o.leaves);
              && r == (if run.res.Ok? then Ok(o.leaves != []) else Err(run.res.error)) && session.State() == run.st
              && psbt.inputs == old(psbt.inputs)[i := AddSigs(old(psbt.inputs)[i], InputSigs(map[], run.sigs))]
    {
      assert psbt.inputs[i := AddSigs(psbt.inputs[i], NOTHING)] == psbt.inputs by { AddNothing(psbt.inputs[i]); }
      ghost var before := psbt.inputs;
      ghost var all := SignLeaves(session.env, lib, cfg, session.State(), h, o, c, o.leaves);
      ghost var done: map<TapKey, TapSig> := map[];
      var signed := false;
      assert o.leaves[0..] == o.leaves && done + all.sigs == all.sigs;
      for k := 0 to |o.leaves|
        invariant signed <==> k > 0
        invariant psbt.inputs == before[i := AddSigs(before[i], InputSigs(map[], done))]
        invariant all == ResumeLeaves(done, SignLeaves(session.env, lib, cfg, session.State(), h, o, c, o.leaves[k..]))
      {
        var one, run := SignNextLeaf(psbt, i, h, o, c, o.leaves[k..], before, done);
        assert o.leaves[k..][1..] == o.leaves[k + 1..];
        done := done + run.sigs;
        if one.Err? {
          return Err(one.error);
        }
        signed := true;
      }
      assert done + map[] == done;
      return Ok(signed);
    }

    // One turn of the loop over the leaves.
    method SignNextLeaf(psbt: PsbtDocument, i: nat, h: Handle, o: TapOrigin, c: TapContext, leaves: seq<LeafHash>,
                        ghost before: seq<PsbtInput>, ghost done: map<TapKey, TapSig>)
      returns (one: Result<()>, ghost run: LeafRun)
      requires i < |before| && leaves != []
      requires psbt.inputs == before[i := AddSigs(before[i], InputSigs(map[], done))]
      modifies session, psbt
      ensures one == run.res && session.State() == run.st
      ensures psbt.inputs == before[i := AddSigs(before[i], InputSigs(map[], done + run.sigs))]
      ensures ResumeLeaves(done, SignLeaves(session.env, lib, cfg, old(session.State()), h, o, c, leaves)) ==
              if run.res.Err? then ResumeLeaves(done, run)
              else ResumeLeaves(done + run.sigs, SignLeaves(session.env, lib, cfg, run.st, h, o, c, leaves[1..]))
    {
      run := SignLeaf(session.env, lib, cfg, session.State(), h, o, c, leaves[0]);
      NextLeaf(session.env, lib, cfg, session.State(), h, o, c, leaves, done);
      AddTwice(before[i], InputSigs(map[], done), InputSigs(map[], run.sigs));
      one := SignTapLeaf(psbt, i, h, o, c, leaves[0]);
    }

    method SignTapLeaf(psbt: PsbtDocument, i: nat, h: Handle, o: TapOrigin, c: TapContext, leaf: LeafHash)
      returns (r: Result<()>)
      requires i < |psbt.inputs|
      modifies session, psbt
      ensures var run := SignLeaf(session.env, lib, cfg, old(session.State()), h, o, c, leaf);
              && r == run.res && session.State() == run.st
              && psbt.inputs == old(psbt.inputs)[i := AddSigs(old(psbt.inputs)[i], InputSigs(map[], run.sigs))]
    {
      assert psbt.inputs[i := AddSigs(psbt.inputs[i], NOTHING)] == psbt.inputs by { AddNothing(psbt.inputs[i]); }
      var msg := LeafMessage(lib, c, leaf);
      if msg.None? {
        return Err(SighashFailure(c.input));
      }
      var sig := session.SchnorrSign(h, cfg.id, o.path, msg.value);
      if sig.Err? {
        return Err(sig.error);
      }
      var key, value := TapKey(o.xonly, leaf), TapSig(sig.value, c.sighashType);
      psbt.inputs := psbt.inputs[i := psbt.inputs[i].(tapScriptSigs := psbt.inputs[i].tapScriptSigs[key := value])];
      assert psbt.inputs[i] == AddSigs(old(psbt.inputs)[i], InputSigs(map[], map[key := value]));
      return Ok(());
    }

    method SignTransactionInPlace(psbt: PsbtDocument) returns (r: Result<()>, ghost recorded: Option<nat>)
      modifies session, psbt
      ensures Call(r, recorded, session.State(), psbt.inputs)
           == SignTransaction(session.env, lib, cfg, old(session.State()), old(psbt.Value()))
    {
      recorded := None;
      var policy := LoadPolicyFrom(session, cfg.id);
      if policy.Err? {
        return Err(policy.error), None;
      }
      var gate := CheckAgainstPsbt(policy.value, psbt.tx, cfg.network);
      if gate.Err? {
        return Err(gate.error), None;
      }
      var signedAny := SignInputs(psbt);
      if signedAny.Err? {
        return Err(signedAny.error), None;
      }
      if signedAny.value {
        var rate := CheckAndRecordSigrate(session, cfg.id, policy.value);
        if rate.Err? {
          return Err(rate.error), None;
        }
        recorded := rate.value;
      }
      return Ok(()), recorded;
    }

    // The loop of `sign_transaction`.
    method SignInputs(psbt: PsbtDocument) returns (r: Result<bool>)
      modifies session, psbt
      ensures var p := SignFrom(session.env, lib, cfg, old(session.State()), psbt.tx, Facts(old(psbt.inputs)), 0);
              r == p.res && session.State() == p.st && psbt.inputs == AddAll(old(psbt.inputs), p.adds)
    {
      ghost var before, facts := psbt.inputs, Facts(psbt.inputs);
      ghost var plan := SignFrom(session.env, lib, cfg, session.State(), psbt.tx, facts, 0);
      ghost var done: seq<InputSigs> := [];
      var signedAny := false;
      AddBlank(before);
      assert [] + plan.adds == plan.adds;
      for i := 0 to |psbt.inputs|
        invariant |psbt.inputs| == |before| && |done| == i
        invariant psbt.inputs == AddAll(before, done + Blank(|before| - i))
        invariant plan == Resume(done, signedAny, SignFrom(session.env, lib, cfg, session.State(), psbt.tx, facts, i))
      {
        var one, run := SignNext(psbt, i, before, done, signedAny);
        done := done + [run.sigs];
        if one.Err? {
          return one;
        }
        signedAny := signedAny || one.value;
      }
      assert done + Blank(0) == done && done + [] == done;
      return Ok(signedAny);
    }

    // One turn of the loop, in terms of what the loop has done and has left to do.
    method SignNext(psbt: PsbtDocument, i: nat, ghost before: seq<PsbtInput>, ghost done: seq<InputSigs>,
                    ghost signedAny: bool)
      returns (one: Result<bool>, ghost run: InputRun)
      requires i == |done| < |before| == |psbt.inputs|
      requires psbt.inputs == AddAll(before, done + Blank(|before| - i))
      modifies session, psbt
      ensures one == run.res && session.State() == run.st
      ensures psbt.inputs == AddAll(before, done + [run.sigs] + Blank(|before| - (i + 1)))
      ensures Resume(done, signedAny,
                     SignFrom(session.env, lib, cfg, old(session.State()), psbt.tx, Facts(before), i)) ==
              if run.res.Err? then Plan(run.res, run.st, done + [run.sigs] + Blank(|before| - (i + 1)))
              else
                Resume(done + [run.sigs], signedAny || run.res.value,
                       SignFrom(session.env, lib, cfg, run.st, psbt.tx, Facts(before), i + 1))
    {
      SameFacts(before, done + Blank(|before| - i));
      run := SignInput(session.env, lib, cfg, session.State(), psbt.tx, Facts(before), i);
      NextInput(session.env, lib, cfg, session.State(), psbt.tx, Facts(before), i, done, signedAny);
      AddNext(before, done, run.sigs);
      one := SignOneInput(psbt, i);
    }

    method SignOneInput(psbt: PsbtDocument, i: nat) returns (r: Result<bool>)
      requires i < |psbt.inputs|
      modifies session, psbt
      ensures var run := SignInput(session.env, lib, cfg, old(session.State()), psbt.tx, Facts(old(psbt.inputs)), i);
              && r == run.res && session.State() == run.st
              && psbt.inputs == old(psbt.inputs)[i := AddSigs(old(psbt.inputs)[i], run.sigs)]
    {
      if psbt.inputs[i].facts.tapInternalKey.Some? || psbt.inputs[i].facts.tapScripts != map[] {
        r := SignTaprootInput(psbt, i);
      } else {
        r := SignP2wshInput(psbt, i);
      }
    }
  }

  // ------------------------------------------------------------------------------------------
  // How the loops resume their specifications
  // ------------------------------------------------------------------------------------------

  ghost function Resume(done: seq<InputSigs>, any: bool, rest: Plan): Plan {
    Plan(if rest.res.Ok? then Ok(any || rest.res.value) else rest.res, rest.st, done + rest.adds)
  }

  ghost function ResumeLeaves(done: map<TapKey, TapSig>, rest: LeafRun): LeafRun {
    LeafRun(rest.res, rest.st, done + rest.sigs)
  }

  lemma NextInput(env: Env, lib: Library, cfg: Config, t: TokenState, tx: UnsignedTx, facts: seq<InputFacts>, i: nat,
                  done: seq<InputSigs>, any: bool)
    requires i < |facts|
    ensures var run := SignInput(env, lib, cfg, t, tx, facts, i);
            Resume(done, any, SignFrom(env, lib, cfg, t, tx, facts, i)) ==
            if run.res.Err? then Plan(run.res, run.st, done + [run.sigs] + Blank(|facts| - (i + 1)))
            else Resume(done + [run.sigs], any || run.res.value, SignFrom(env, lib, cfg, run.st, tx, facts, i + 1))
  {
    var run := SignInput(env, lib, cfg, t, tx, facts, i);
    if run.res.Err? {
      assert done + ([run.sigs] + Blank(|facts| - i - 1)) == done + [run.sigs] + Blank(|facts| - i - 1);
    } else {
      var rest := SignFrom(env, lib, cfg, run.st, tx, facts, i + 1);
      assert done + ([run.sigs] + rest.adds) == done + [run.sigs] + rest.adds;
    }
  }

  lemma NextLeaf(env: Env, lib: Library, cfg: Config, t: TokenState, h: Handle, o: TapOrigin, c: TapContext,
                 leaves: seq<LeafHash>, done: map<TapKey, TapSig>)
    requires leaves != []
    ensures var run := SignLeaf(env, lib, cfg, t, h, o, c, leaves[0]);
            ResumeLeaves(done, SignLeaves(env, lib, cfg, t, h, o, c, leaves)) ==
            if run.res.Err? then ResumeLeaves(done, run)
            else ResumeLeaves(done + run.sigs, SignLeaves(env, lib, cfg, run.st, h, o, c, leaves[1..]))
  {
    var run := SignLeaf(env, lib, cfg, t, h, o, c, leaves[0]);
    if run.res.Ok? {
      var rest := SignLeaves(env, lib, cfg, run.st, h, o, c, leaves[1..]);
      assert done + (run.sigs + rest.sigs) == done + run.sigs + rest.sigs;
    }
  }

  lemma AddTwice(input: PsbtInput, a: InputSigs, b: InputSigs)
    ensures AddSigs(AddSigs(input, a), b) == AddSigs(input, InputSigs(a.ecdsa + b.ecdsa, a.tap + b.tap))
    ensures a.ecdsa == map[] && b.ecdsa == map[] ==>
              AddSigs(AddSigs(input, a), b) == AddSigs(input, InputSigs(map[], a.tap + b.tap))
  {
    assert input.partialSigs + a.ecdsa + b.ecdsa == input.partialSigs + (a.ecdsa + b.ecdsa);
    assert input.tapScriptSigs + a.tap + b.tap == input.tapScriptSigs + (a.tap + b.tap);
  }

  lemma AddNothing(input: PsbtInput)
    ensures AddSigs(input, NOTHING) == input
  {
    assert input.partialSigs + map[] == input.partialSigs && input.tapScriptSigs + map[] == input.tapScriptSigs;
  }

  lemma AddBlank(inputs: seq<PsbtInput>)
    ensures AddAll(inputs, [] + Blank(|inputs|)) == inputs
  {
    forall i | 0 <= i < |inputs| {
      AddNothing(inputs[i]);
    }
  }

  lemma SameFacts(inputs: seq<PsbtInput>, adds: seq<InputSigs>)
    requires |adds| == |inputs|
    ensures Facts(AddAll(inputs, adds)) == Facts(inputs)
  {
  }

  // Writing input i on top of what the earlier inputs got.
  lemma AddNext(inputs: seq<PsbtInput>, done: seq<InputSigs>, s: InputSigs)
    requires |done| < |inputs|
    ensures var i := |done|;
            var now := AddAll(inputs, done + Blank(|inputs| - i));
            now[i := AddSigs(now[i], s)] == AddAll(inputs, done + [s] + Blank(|inputs| - (i + 1)))
  {
    var i := |done|;
    AddNothing(inputs[i]);
    assert (done + Blank(|inputs| - i))[i] == NOTHING;
  }
}
