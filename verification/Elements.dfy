// Signing an Elements PSET: the second signing loop, and its relation to the Bitcoin one.
module Elements {
  import opened Results
  import opened Bip32
  import opened Policy
  import opened Labels
  import opened TokenModel
  import opened Store
  import opened SigRate
  import opened Backend
  import opened PsbtModel
  import opened Signer
  import opened SigningEffect
  import opened SigningTheorems
  import Ecdsa

  type Transaction = seq<byte>
  type Amount = seq<byte>

  // The part of a PSET input signing may read. `amount` is the possibly confidential value of the
  // witness UTXO; `rest` stands for the fields signing ignores.
  datatype PsetFacts = PsetFacts(
    origins: seq<KeyOrigin<PubKey>>,
    sighashType: Option<u32>,
    witnessScript: Option<Script>,
    amount: Option<Amount>,
    rest: seq<byte>)

  datatype PsetInput = PsetInput(facts: PsetFacts, partialSigs: map<PubKey, seq<byte>>)
  datatype Pset = Pset(globals: seq<byte>, inputs: seq<PsetInput>)

  datatype ElementsLibrary = ElementsLibrary(
    extract: Pset -> Option<Transaction>,
    typeOf: u32 -> Option<u32>,
    segwitV0: (Transaction, nat, Script, Amount, u32) -> Message,
    der: Ecdsa.Signature -> seq<byte>)

  type PsetSigs = map<PubKey, seq<byte>>

  function AddPset(input: PsetInput, s: PsetSigs): PsetInput {
    input.(partialSigs := input.partialSigs + s)
  }

  function AddAllPset(inputs: seq<PsetInput>, adds: seq<PsetSigs>): (r: seq<PsetInput>)
    requires |adds| == |inputs|
    ensures |r| == |inputs| && forall i :: 0 <= i < |r| ==> r[i] == AddPset(inputs[i], adds[i])
  {
    seq(|inputs|, i requires 0 <= i < |inputs| => AddPset(inputs[i], adds[i]))
  }

  function BlankPset(n: nat): (r: seq<PsetSigs>)
    ensures |r| == n && forall i :: 0 <= i < n ==> r[i] == map[]
  {
    seq(n, _ => map[])
  }

  function PsetFactsOf(inputs: seq<PsetInput>): (r: seq<PsetFacts>)
    ensures |r| == |inputs| && forall i :: 0 <= i < |r| ==> r[i] == inputs[i].facts
  {
    seq(|inputs|, i requires 0 <= i < |inputs| => inputs[i].facts)
  }

  // ------------------------------------------------------------------------------------------
  // The loop as a state transition
  // ------------------------------------------------------------------------------------------

  datatype PsetTask = PsetTask(pk: PubKey, path: Path, message: Message, sighashType: u32)

  // A sighash type that does not decode falls back to ALL.
  function PsetTaskOf(lib: ElementsLibrary, cfg: Config, tx: Transaction, f: PsetFacts,
                      i: nat): (r: Result<Option<PsetTask>>)
    ensures r.Ok? ==> (r.value.None? <==> FindOrigin(f.origins, cfg.fingerprint).None?)
    ensures r.Ok? && r.value.Some? ==>
              var o := FindOrigin(f.origins, cfg.fingerprint).value;
              r.value.value.pk == o.pk && r.value.value.path == o.path && |cfg.path| <= |o.path|
  {
    var o := FindOrigin(f.origins, cfg.fingerprint);
    if o.None? then Ok(None)
    else if |o.value.path| < |cfg.path| then Err(PathTooShort(i))
    else
      var decoded := if f.sighashType.None? then None else lib.typeOf(f.sighashType.value);
      var ty := if decoded.None? then SIGHASH_ALL else decoded.value;
      if f.witnessScript.None? then Err(MissingWitnessScript(i))
      else if f.amount.None? then Err(MissingWitnessUtxo(i))
      else
        var m := lib.segwitV0(tx, i, f.witnessScript.value, f.amount.value, ty);
        Ok(Some(PsetTask(o.value.pk, o.value.path, m, ty)))
  }

  datatype PsetRun = PsetRun(res: Result<bool>, st: TokenState, sigs: PsetSigs)

  // The DER signature followed by the low byte of the sighash type.
  function PsetBytes(lib: ElementsLibrary, g: Ecdsa.Signature, sighashType: u32): seq<byte> {
    lib.der(g) + [sighashType % 0x100]
  }

  function SignPsetInput(env: Env, lib: ElementsLibrary, cfg: Config, t: TokenState, tx: Transaction, f: PsetFacts,
                         i: nat): PsetRun {
    var task := PsetTaskOf(lib, cfg, tx, f, i);
    if task.Err? then PsetRun(Err(task.error), t, map[])
    else if task.value.None? then PsetRun(Ok(false), t, map[])
    else
      var k := task.value.value;
      var s := SignAt(env, cfg, t, k.path[|cfg.path|..], k.message);
      if s.res.Err? then PsetRun(Err(s.res.error), s.st, map[])
      else PsetRun(Ok(true), s.st, map[k.pk := PsetBytes(lib, s.res.value, k.sighashType)])
  }

  datatype PsetPlan = PsetPlan(res: Result<nat>, st: TokenState, adds: seq<PsetSigs>)

  function SignPsetFrom(env: Env, lib: ElementsLibrary, cfg: Config, t: TokenState, tx: Transaction,
                        facts: seq<PsetFacts>, i: nat): (p: PsetPlan)
    requires i <= |facts|
    ensures |p.adds| == |facts| - i
    decreases |facts| - i
  {
    if i == |facts| then PsetPlan(Ok(0), t, [])
    else
      var a := SignPsetInput(env, lib, cfg, t, tx, facts[i], i);
      if a.res.Err? then PsetPlan(Err(a.res.error), a.st, [a.sigs] + BlankPset(|facts| - i - 1))
      else
        var rest := SignPsetFrom(env, lib, cfg, a.st, tx, facts, i + 1);
        PsetPlan(if rest.res.Ok? then Ok(rest.res.value + if a.res.value then 1 else 0) else rest.res, rest.st,
                 [a.sigs] + rest.adds)
  }

  datatype PsetCall = PsetCall(res: Result<nat>, recorded: Option<nat>, st: TokenState, inputs: seq<PsetInput>)

  function FinishPset(env: Env, cfg: Config, policy: HsmPolicy, p: PsetPlan, inputs: seq<PsetInput>): (c: PsetCall)
    requires |p.adds| == |inputs|
    ensures |c.inputs| == |inputs|
  {
    var signed := AddAllPset(inputs, p.adds);
    if p.res.Err? || p.res.value == 0 then PsetCall(p.res, None, p.st, signed)
    else
      var r := CheckAndRecord(env, p.st, cfg.id, policy);
      if r.res.Err? then PsetCall(Err(r.res.error), None, r.st, signed) else PsetCall(p.res, r.res.value, r.st, signed)
  }

  function SignPsetUnder(env: Env, lib: ElementsLibrary, cfg: Config, t: TokenState, policy: HsmPolicy,
                         pset: Pset): (c: PsetCall)
    ensures |c.inputs| == |pset.inputs|
  {
    var tx := lib.extract(pset);
    if tx.None? then PsetCall(Err(ExtractFailure), None, t, pset.inputs)
    else
      FinishPset(env, cfg, policy, SignPsetFrom(env, lib, cfg, t, tx.value, PsetFactsOf(pset.inputs), 0), pset.inputs)
  }

  // The policy is read for its ceiling only; its other rules are never checked on a PSET.
  function SignPset(env: Env, lib: ElementsLibrary, cfg: Config, t: TokenState, pset: Pset): (c: PsetCall)
    ensures |c.inputs| == |pset.inputs|
  {
    var l := LoadPolicy(env, t, cfg.id);
    if l.res.Err? then PsetCall(Err(l.res.error), None, l.st, pset.inputs)
    else SignPsetUnder(env, lib, cfg, l.st, l.res.value, pset)
  }

  // ------------------------------------------------------------------------------------------
  // The code
  // ------------------------------------------------------------------------------------------

  class PsetDocument {
    const globals: seq<byte>
    var inputs: seq<PsetInput>

    constructor (p: Pset)
      ensures Value() == p
    {
      globals, inputs := p.globals, p.inputs;
    }

    function Value(): Pset
      reads this
    {
      Pset(globals, inputs)
    }
  }

  class ElementsSigner {
    const lib: ElementsLibrary
    const signer: Pkcs11Signer
    const session: Token := signer.session
    const cfg: Config := signer.cfg

    constructor (lib: ElementsLibrary, signer: Pkcs11Signer)
      ensures this.lib == lib && this.signer == signer
    {
      this.lib, this.signer := lib, signer;
    }

    method SignPsetInPlace(pset: PsetDocument) returns (r: Result<nat>, ghost recorded: Option<nat>)
      modifies session, pset
      ensures PsetCall(r, recorded, session.State(), pset.inputs)
           == SignPset(session.env, lib, cfg, old(session.State()), old(pset.Value()))
    {
      recorded := None;
      var policy := LoadPolicyFrom(session, cfg.id);
      if policy.Err? {
        return Err(policy.error), None;
      }
      var tx := lib.extract(pset.Value());
      if tx.None? {
        return Err(ExtractFailure), None;
      }
      r := SignPsetInputs(pset, tx.value);
      if r.Ok? && r.value > 0 {
        var rate := CheckAndRecordSigrate(session, cfg.id, policy.value);
        if rate.Err? {
          return Err(rate.error), None;
        }
        recorded := rate.value;
      }
    }

    // The loop of `sign_pset`.
    method SignPsetInputs(pset: PsetDocument, tx: Transaction) returns (r: Result<nat>)
      modifies session, pset
      ensures var p := SignPsetFrom(session.env, lib, cfg, old(session.State()), tx,
                                    PsetFactsOf(old(pset.inputs)), 0);
              r == p.res && session.State() == p.st && pset.inputs == AddAllPset(old(pset.inputs), p.adds)
    {
      ghost var env := session.env;
      ghost var before, facts := pset.inputs, PsetFactsOf(pset.inputs);
      ghost var plan := SignPsetFrom(env, lib, cfg, session.State(), tx, facts, 0);
      ghost var done: seq<PsetSigs> := [];
      var signed := 0;
      AddBlankPset(before);
      assert [] + plan.adds == plan.adds;
      for i := 0 to |pset.inputs|
        invariant |pset.inputs| == |before| && |done| == i
        invariant pset.inputs == AddAllPset(before, done + BlankPset(|before| - i))
        invariant plan == ResumePset(done, signed, SignPsetFrom(env, lib, cfg, session.State(), tx, facts, i))
      {
        var one, run := SignNextPset(pset, tx, i, before, done, signed);
        done := done + [run.sigs];
        if one.Err? {
          return Err(one.error);
        }
        signed := signed + if one.value then 1 else 0;
      }
      PsetLoopEnds(env, lib, cfg, session.State(), tx, before, done, signed);
      return Ok(signed);
    }

    // One turn of the loop, in terms of what the loop has done and has left to do.
    method SignNextPset(pset: PsetDocument, tx: Transaction, i: nat, ghost before: seq<PsetInput>,
                        ghost done: seq<PsetSigs>, ghost signed: nat)
      returns (one: Result<bool>, ghost run: PsetRun)
      requires i == |done| < |before| == |pset.inputs|
      requires pset.inputs == AddAllPset(before, done + BlankPset(|before| - i))
      modifies session, pset
      ensures one == run.res && session.State() == run.st
      ensures pset.inputs == AddAllPset(before, done + [run.sigs] + BlankPset(|before| - (i + 1)))
      ensures ResumePset(done, signed,
                         SignPsetFrom(session.env, lib, cfg, old(session.State()), tx, PsetFactsOf(before), i)) ==
              if run.res.Err? then
                PsetPlan(Err(run.res.error), run.st, done + [run.sigs] + BlankPset(|before| - (i + 1)))
              else
                ResumePset(done + [run.sigs], signed + (if run.res.value then 1 else 0),
                           SignPsetFrom(session.env, lib, cfg, run.st, tx, PsetFactsOf(before), i + 1))
    {
      run := SignPsetInput(session.env, lib, cfg, session.State(), tx, pset.inputs[i].facts, i);
      PsetStep(session.env, lib, cfg, session.State(), tx, before, done, signed);
      one := SignOnePsetInput(pset, tx, i);
    }

    method SignOnePsetInput(pset: PsetDocument, tx: Transaction, i: nat) returns (r: Result<bool>)
      requires i < |pset.inputs|
      modifies session, pset
      ensures var run := SignPsetInput(session.env, lib, cfg, old(session.State()), tx,
                                       old(pset.inputs)[i].facts, i);
              && r == run.res && session.State() == run.st
              && pset.inputs == old(pset.inputs)[i := AddPset(old(pset.inputs)[i], run.sigs)]
    {
      assert pset.inputs[i].partialSigs + map[] == pset.inputs[i].partialSigs;
      assert pset.inputs[i := AddPset(pset.inputs[i], map[])] == pset.inputs;
      var task := ReadTask(tx, pset.inputs[i].facts, i);
      if task.Err? {
        return Err(task.error);
      }
      if task.value.None? {
        return Ok(false);
      }
      var k := task.value.value;
      var sig := signer.SignDigest(k.path[|cfg.path|..], k.message);
      if sig.Err? {
        return Err(sig.error);
      }
      var sigBytes := lib.der(sig.value);
      sigBytes := sigBytes + [k.sighashType % 0x100];
      pset.inputs := pset.inputs[i := pset.inputs[i].(
        partialSigs := pset.inputs[i].partialSigs[k.pk := sigBytes])];
      assert pset.inputs[i] == AddPset(old(pset.inputs)[i], map[k.pk := sigBytes]);
      return Ok(true);
    }

    // The part of the turn before the token is called.
    method ReadTask(tx: Transaction, f: PsetFacts, i: nat) returns (r: Result<Option<PsetTask>>)
      ensures r == PsetTaskOf(lib, cfg, tx, f, i)
    {
      var origin := FindOrigin(f.origins, cfg.fingerprint);
      if origin.None? {
        return Ok(None);
      }
      if |origin.value.path| < |cfg.path| {
        return Err(PathTooShort(i));
      }
      var ty := SIGHASH_ALL;
      if f.sighashType.Some? && lib.typeOf(f.sighashType.value).Some? {
        ty := lib.typeOf(f.sighashType.value).value;
      }
      if f.witnessScript.None? {
        return Err(MissingWitnessScript(i));
      }
      if f.amount.None? {
        return Err(MissingWitnessUtxo(i));
      }
      var msg := lib.segwitV0(tx, i, f.witnessScript.value, f.amount.value, ty);
      return Ok(Some(PsetTask(origin.value.pk, origin.value.path, msg, ty)));
    }
  }

  ghost function ResumePset(done: seq<PsetSigs>, signed: nat, rest: PsetPlan): PsetPlan {
    PsetPlan(if rest.res.Ok? then Ok(signed + rest.res.value) else rest.res, rest.st, done + rest.adds)
  }

  lemma NextPsetInput(env: Env, lib: ElementsLibrary, cfg: Config, t: TokenState, tx: Transaction,
                      facts: seq<PsetFacts>, i: nat, done: seq<PsetSigs>, signed: nat)
    requires i < |facts|
    ensures var run := SignPsetInput(env, lib, cfg, t, tx, facts[i], i);
            ResumePset(done, signed, SignPsetFrom(env, lib, cfg, t, tx, facts, i)) ==
            if run.res.Err? then PsetPlan(Err(run.res.error), run.st, done + [run.sigs] + BlankPset(|facts| - i - 1))
            else ResumePset(done + [run.sigs], signed + (if run.res.value then 1 else 0),
                            SignPsetFrom(env, lib, cfg, run.st, tx, facts, i + 1))
  {
    var run := SignPsetInput(env, lib, cfg, t, tx, facts[i], i);
    if run.res.Err? {
      assert done + ([run.sigs] + BlankPset(|facts| - i - 1)) == done + [run.sigs] + BlankPset(|facts| - i - 1);
    } else {
      var rest := SignPsetFrom(env, lib, cfg, run.st, tx, facts, i + 1);
      assert done + ([run.sigs] + rest.adds) == done + [run.sigs] + rest.adds;
    }
  }

  // One turn of the loop, on the document and on what is left to do.
  lemma PsetStep(env: Env, lib: ElementsLibrary, cfg: Config, t: TokenState, tx: Transaction, before: seq<PsetInput>,
                 done: seq<PsetSigs>, signed: nat)
    requires |done| < |before|
    ensures var i, facts := |done|, PsetFactsOf(before);
            var now := AddAllPset(before, done + BlankPset(|before| - i));
            var run := SignPsetInput(env, lib, cfg, t, tx, now[i].facts, i);
            && now[i := AddPset(now[i], run.sigs)]
               == AddAllPset(before, done + [run.sigs] + BlankPset(|before| - (i + 1)))
            && ResumePset(done, signed, SignPsetFrom(env, lib, cfg, t, tx, facts, i)) ==
               if run.res.Err? then
                 PsetPlan(Err(run.res.error), run.st, done + [run.sigs] + BlankPset(|before| - (i + 1)))
               else ResumePset(done + [run.sigs], signed + (if run.res.value then 1 else 0),
                               SignPsetFrom(env, lib, cfg, run.st, tx, facts, i + 1))
  {
    var i, facts := |done|, PsetFactsOf(before);
    AddNextPset(before, done, SignPsetInput(env, lib, cfg, t, tx, facts[i], i).sigs);
    NextPsetInput(env, lib, cfg, t, tx, facts, i, done, signed);
  }

  lemma PsetLoopEnds(env: Env, lib: ElementsLibrary, cfg: Config, t: TokenState, tx: Transaction,
                     before: seq<PsetInput>, done: seq<PsetSigs>, signed: nat)
    requires |done| == |before|
    ensures ResumePset(done, signed, SignPsetFrom(env, lib, cfg, t, tx, PsetFactsOf(before), |before|))
         == PsetPlan(Ok(signed), t, done)
    ensures done + BlankPset(0) == done
  {
    assert done + [] == done;
  }

  lemma AddBlankPset(inputs: seq<PsetInput>)
    ensures AddAllPset(inputs, [] + BlankPset(|inputs|)) == inputs
  {
    forall i | 0 <= i < |inputs|
      ensures AddPset(inputs[i], map[]) == inputs[i]
    {
      assert inputs[i].partialSigs + map[] == inputs[i].partialSigs;
    }
  }

  lemma AddNextPset(inputs: seq<PsetInput>, done: seq<PsetSigs>, s: PsetSigs)
    requires |done| < |inputs|
    ensures var i := |done|;
            var now := AddAllPset(inputs, done + BlankPset(|inputs| - i));
            && now[i].facts == inputs[i].facts
            && now[i := AddPset(now[i], s)] == AddAllPset(inputs, done + [s] + BlankPset(|inputs| - i - 1))
  {
    var i := |done|;
    assert inputs[i].partialSigs + map[] == inputs[i].partialSigs;
    assert (done + BlankPset(|inputs| - i))[i] == map[];
  }

  // ------------------------------------------------------------------------------------------
  // The two loops
  // ------------------------------------------------------------------------------------------

  // Input i of the PSET asks for the same signature as input i of the PSBT: no taproot data, the
  // same origins, the same sighash type, which both sides decode alike if they decode it, the
  // same script, a witness UTXO on both sides or on neither, and sighash functions that agree.
  ghost predicate Corresponds(lib: Library, elib: ElementsLibrary, tx: UnsignedTx, etx: Transaction, f: InputFacts,
                              g: PsetFacts, i: nat)
  {
    && !IsTaproot(f)
    && SameOrigins(f.origins, g.origins)
    && f.sighashType == g.sighashType
    && (f.sighashType.Some? ==> elib.typeOf(f.sighashType.value) == lib.ecdsaType(f.sighashType.value))
    && f.witnessScript == g.witnessScript
    && (f.witnessUtxo.Some? <==> g.amount.Some?)
    && (f.witnessScript.Some? && f.witnessUtxo.Some? ==>
          forall ty: u32 :: lib.p2wsh(tx, i, f.witnessScript.value, f.witnessUtxo.value.value, ty)
                         == Some(elib.segwitV0(etx, i, g.witnessScript.value, g.amount.value, ty)))
  }

  predicate TypeDecodes(lib: Library, f: InputFacts) {
    f.sighashType.Some? ==> lib.ecdsaType(f.sighashType.value).Some?
  }

  // Such inputs with a sighash type that is absent or decodes.
  ghost predicate Mirrors(lib: Library, elib: ElementsLibrary, tx: UnsignedTx, etx: Transaction, f: InputFacts,
                          g: PsetFacts, i: nat)
  {
    Corresponds(lib, elib, tx, etx, f, g, i) && TypeDecodes(lib, f)
  }

  ghost predicate SameOrigins(a: seq<KeyOrigin<Point>>, b: seq<KeyOrigin<PubKey>>) {
    && |a| == |b|
    && forall j :: 0 <= j < |a| ==> b[j] == KeyOrigin(PubKey(true, a[j].pk), a[j].fingerprint, a[j].path)
  }

  lemma {:induction false} SameOriginFound(a: seq<KeyOrigin<Point>>, b: seq<KeyOrigin<PubKey>>, fingerprint: nat)
    requires SameOrigins(a, b)
    ensures var x, y := FindOrigin(a, fingerprint), FindOrigin(b, fingerprint);
            && (x.Some? <==> y.Some?)
            && (x.Some? ==> y.value == KeyOrigin(PubKey(true, x.value.pk), x.value.fingerprint, x.value.path))
    decreases |a|
  {
    if a != [] && a[0].fingerprint != fingerprint {
      SameOriginFound(a[1..], b[1..], fingerprint);
    }
  }

  // What one side added to an input against what the other side added.
  ghost predicate SameSigs(elib: ElementsLibrary, s: InputSigs, e: PsetSigs) {
    && s.tap == map[] && e.Keys == s.ecdsa.Keys
    && forall pk :: pk in e ==> e[pk] == elib.der(s.ecdsa[pk].signature) + [s.ecdsa[pk].sighashType % 256]
  }

  lemma InputsSimulate(env: Env, lib: Library, elib: ElementsLibrary, cfg: Config, t: TokenState, tx: UnsignedTx,
                       etx: Transaction, f: InputFacts, g: PsetFacts, i: nat)
    requires Mirrors(lib, elib, tx, etx, f, g, i)
    ensures var a := SignP2wsh(env, lib, cfg, t, tx, f, i);
            var b := SignPsetInput(env, elib, cfg, t, etx, g, i);
            a.res == b.res && a.st == b.st && SameSigs(elib, a.sigs, b.sigs)
  {
    SameOriginFound(f.origins, g.origins, cfg.fingerprint);
    var x, y := EcdsaTaskOf(lib, cfg, tx, f, i), PsetTaskOf(elib, cfg, etx, g, i);
    assert x.Err? ==> y == Err(x.error);
    if x.Ok? && x.value.Some? {
      var k := x.value.value;
      assert y == Ok(Some(PsetTask(PubKey(true, k.pk), k.path, k.message, k.sighashType)));
    }
  }

  // A sighash type that does not decode is where the branches part, and only where they come to
  // look at it: when an origin is ours and its path is long enough. There the Bitcoin branch
  // fails before it calls the token, and the other one goes on with ALL.
  lemma ParityIff(env: Env, lib: Library, elib: ElementsLibrary, cfg: Config, t: TokenState, tx: UnsignedTx,
                  etx: Transaction, f: InputFacts, g: PsetFacts, i: nat)
    requires Corresponds(lib, elib, tx, etx, f, g, i)
    ensures var a := SignP2wsh(env, lib, cfg, t, tx, f, i);
            var b := SignPsetInput(env, elib, cfg, t, etx, g, i);
            var o := FindOrigin(f.origins, cfg.fingerprint);
            var alike := o.None? || |o.value.path| < |cfg.path| || TypeDecodes(lib, f);
            && (a.res == b.res <==> alike)
            && (alike ==> a.st == b.st && SameSigs(elib, a.sigs, b.sigs))
            && (!alike ==> a == InputRun(Err(BadSighashType(i)), t, NOTHING))
  {
    SameOriginFound(f.origins, g.origins, cfg.fingerprint);
    if TypeDecodes(lib, f) {
      InputsSimulate(env, lib, elib, cfg, t, tx, etx, f, g, i);
    } else {
      NeverBadType(env, elib, cfg, t, etx, g, i);
    }
  }

  lemma NeverBadType(env: Env, lib: ElementsLibrary, cfg: Config, t: TokenState, tx: Transaction, f: PsetFacts, i: nat)
    ensures SignPsetInput(env, lib, cfg, t, tx, f, i).res != Err(BadSighashType(i))
  {
    var task := PsetTaskOf(lib, cfg, tx, f, i);
    if task.Ok? && task.value.Some? {
      DeriveOnlyRefused(env, t, cfg.handle, task.value.value.path[|cfg.path|..]);
    }
  }

  // On mirrored inputs the two loops are one: they select the same inputs, make the same token
  // calls, and fail at the same input for the same cause. The PSET loop counts what the PSBT
  // loop only notes.
  lemma {:induction false} LoopsSimulate(env: Env, lib: Library, elib: ElementsLibrary, cfg: Config, t: TokenState,
                                         tx: UnsignedTx, etx: Transaction, fs: seq<InputFacts>, gs: seq<PsetFacts>,
                                         i: nat)
    requires i <= |fs| == |gs|
    requires forall j :: i <= j < |fs| ==> Mirrors(lib, elib, tx, etx, fs[j], gs[j], j)
    ensures var a := SignFrom(env, lib, cfg, t, tx, fs, i);
            var b := SignPsetFrom(env, elib, cfg, t, etx, gs, i);
            && a.st == b.st
            && (a.res.Err? <==> b.res.Err?) && (a.res.Err? ==> a.res.error == b.res.error)
            && (a.res.Ok? ==> (a.res.value <==> b.res.value > 0))
    decreases |fs| - i
  {
    if i < |fs| {
      InputsSimulate(env, lib, elib, cfg, t, tx, etx, fs[i], gs[i], i);
      var a := SignInput(env, lib, cfg, t, tx, fs, i);
      if a.res.Ok? {
        LoopsSimulate(env, lib, elib, cfg, a.st, tx, etx, fs, gs, i + 1);
      }
    }
  }

  // And they fill the same keys with the same signatures.
  lemma {:induction false} AddsSimulate(env: Env, lib: Library, elib: ElementsLibrary, cfg: Config, t: TokenState,
                                        tx: UnsignedTx, etx: Transaction, fs: seq<InputFacts>, gs: seq<PsetFacts>,
                                        i: nat, j: nat)
    requires i <= j < |fs| == |gs|
    requires forall k :: i <= k < |fs| ==> Mirrors(lib, elib, tx, etx, fs[k], gs[k], k)
    ensures SameSigs(elib, SignFrom(env, lib, cfg, t, tx, fs, i).adds[j - i],
                     SignPsetFrom(env, elib, cfg, t, etx, gs, i).adds[j - i])
    decreases |fs| - i
  {
    InputsSimulate(env, lib, elib, cfg, t, tx, etx, fs[i], gs[i], i);
    if i == j {
      FirstAdd(env, lib, cfg, t, tx, fs, i);
      FirstPsetAdd(env, elib, cfg, t, etx, gs, i);
    } else {
      LaterAdd(env, lib, cfg, t, tx, fs, i, j - i - 1);
      LaterPsetAdd(env, elib, cfg, t, etx, gs, i, j - i - 1);
      var a := SignInput(env, lib, cfg, t, tx, fs, i);
      if a.res.Ok? {
        AddsSimulate(env, lib, elib, cfg, a.st, tx, etx, fs, gs, i + 1, j);
      }
    }
  }

  lemma FirstPsetAdd(env: Env, lib: ElementsLibrary, cfg: Config, t: TokenState, tx: Transaction,
                     facts: seq<PsetFacts>, i: nat)
    requires i < |facts|
    ensures SignPsetFrom(env, lib, cfg, t, tx, facts, i).adds[0]
         == SignPsetInput(env, lib, cfg, t, tx, facts[i], i).sigs
  {
  }

  lemma LaterPsetAdd(env: Env, lib: ElementsLibrary, cfg: Config, t: TokenState, tx: Transaction,
                     facts: seq<PsetFacts>, i: nat, k: nat)
    requires i + 1 + k < |facts|
    ensures var a := SignPsetInput(env, lib, cfg, t, tx, facts[i], i);
            SignPsetFrom(env, lib, cfg, t, tx, facts, i).adds[k + 1] ==
            if a.res.Err? then map[] else SignPsetFrom(env, lib, cfg, a.st, tx, facts, i + 1).adds[k]
  {
  }

  // Whole calls: with the PSBT let through and the transaction extracted, the two calls leave the
  // token in the same state, agree on success and on the cause of failure, and record the same
  // timestamp.
  lemma CallsSimulate(env: Env, lib: Library, elib: ElementsLibrary, cfg: Config, t: TokenState, psbt: Psbt, pset: Pset)
    requires |psbt.inputs| == |pset.inputs| && Passes(env, cfg, t, psbt.tx) && elib.extract(pset).Some?
    requires forall j :: 0 <= j < |psbt.inputs| ==>
               Mirrors(lib, elib, psbt.tx, elib.extract(pset).value, psbt.inputs[j].facts, pset.inputs[j].facts, j)
    ensures var a := SignTransaction(env, lib, cfg, t, psbt);
            var b := SignPset(env, elib, cfg, t, pset);
            && a.st == b.st && a.recorded == b.recorded
            && (a.res.Err? <==> b.res.Err?) && (a.res.Err? ==> a.res.error == b.res.error)
  {
    var l := LoadPolicy(env, t, cfg.id);
    CallShape(env, lib, cfg, t, psbt);
    LoopsSimulate(env, lib, elib, cfg, l.st, psbt.tx, elib.extract(pset).value, Facts(psbt.inputs),
                  PsetFactsOf(pset.inputs), 0);
  }

  // And in the documents: on every input both calls fill the same keys, the PSET with the DER
  // bytes of the signature the PSBT gets.
  lemma CallsFillAlike(env: Env, lib: Library, elib: ElementsLibrary, cfg: Config, t: TokenState, psbt: Psbt,
                       pset: Pset, i: nat) returns (s: InputSigs, e: PsetSigs)
    requires |psbt.inputs| == |pset.inputs| && Passes(env, cfg, t, psbt.tx) && elib.extract(pset).Some?
    requires forall j :: 0 <= j < |psbt.inputs| ==>
               Mirrors(lib, elib, psbt.tx, elib.extract(pset).value, psbt.inputs[j].facts, pset.inputs[j].facts, j)
    requires i < |psbt.inputs|
    ensures SameSigs(elib, s, e)
    ensures SignTransaction(env, lib, cfg, t, psbt).inputs[i] == AddSigs(psbt.inputs[i], s)
    ensures |SignPset(env, elib, cfg, t, pset).inputs| == |pset.inputs|
    ensures SignPset(env, elib, cfg, t, pset).inputs[i] == AddPset(pset.inputs[i], e)
  {
    s := LoopOf(env, lib, cfg, t, psbt).adds[i];
    e := PsetLoopOf(env, elib, cfg, t, pset).adds[i];
    PsbtFills(env, lib, cfg, t, psbt, i);
    PsetFills(env, elib, cfg, t, pset, i);
    MirroredAdds(env, lib, elib, cfg, t, psbt, pset, i);
  }

  lemma MirroredAdds(env: Env, lib: Library, elib: ElementsLibrary, cfg: Config, t: TokenState, psbt: Psbt, pset: Pset,
                     i: nat)
    requires |psbt.inputs| == |pset.inputs| && elib.extract(pset).Some? && i < |psbt.inputs|
    requires forall j :: 0 <= j < |psbt.inputs| ==>
               Mirrors(lib, elib, psbt.tx, elib.extract(pset).value, psbt.inputs[j].facts, pset.inputs[j].facts, j)
    ensures SameSigs(elib, LoopOf(env, lib, cfg, t, psbt).adds[i], PsetLoopOf(env, elib, cfg, t, pset).adds[i])
  {
    AddsSimulate(env, lib, elib, cfg, LoadPolicy(env, t, cfg.id).st, psbt.tx, elib.extract(pset).value,
                 Facts(psbt.inputs), PsetFactsOf(pset.inputs), 0, i);
  }

  lemma PsbtFills(env: Env, lib: Library, cfg: Config, t: TokenState, psbt: Psbt, i: nat)
    requires Passes(env, cfg, t, psbt.tx) && i < |psbt.inputs|
    ensures SignTransaction(env, lib, cfg, t, psbt).inputs[i]
         == AddSigs(psbt.inputs[i], LoopOf(env, lib, cfg, t, psbt).adds[i])
  {
    CallAddsAll(env, lib, cfg, t, psbt);
  }

  lemma PsetFills(env: Env, lib: ElementsLibrary, cfg: Config, t: TokenState, pset: Pset, i: nat)
    requires LoadPolicy(env, t, cfg.id).res.Ok? && lib.extract(pset).Some? && i < |pset.inputs|
    ensures |SignPset(env, lib, cfg, t, pset).inputs| == |pset.inputs|
    ensures SignPset(env, lib, cfg, t, pset).inputs[i]
         == AddPset(pset.inputs[i], PsetLoopOf(env, lib, cfg, t, pset).adds[i])
  {
    PsetCallShape(env, lib, cfg, t, pset);
  }

  function PsetLoopOf(env: Env, lib: ElementsLibrary, cfg: Config, t: TokenState, pset: Pset): (p: PsetPlan)
    requires lib.extract(pset).Some?
    ensures |p.adds| == |pset.inputs|
  {
    SignPsetFrom(env, lib, cfg, LoadPolicy(env, t, cfg.id).st, lib.extract(pset).value, PsetFactsOf(pset.inputs), 0)
  }

  // A call is the read of the policy, then the loop, then the rate check.
  lemma PsetCallShape(env: Env, lib: ElementsLibrary, cfg: Config, t: TokenState, pset: Pset)
    ensures var l := LoadPolicy(env, t, cfg.id);
            var c := SignPset(env, lib, cfg, t, pset);
            if l.res.Ok? && lib.extract(pset).Some? then
              c == FinishPset(env, cfg, l.res.value, PsetLoopOf(env, lib, cfg, t, pset), pset.inputs)
            else
              c.res.Err? && c.recorded == None && c.st == l.st && c.inputs == pset.inputs
  {
  }

  // The number of inputs that carry our fingerprint.
  function OursFrom(cfg: Config, facts: seq<PsetFacts>, i: nat): nat
    requires i <= |facts|
    decreases |facts| - i
  {
    if i == |facts| then 0
    else (if FindOrigin(facts[i].origins, cfg.fingerprint).Some? then 1 else 0) + OursFrom(cfg, facts, i + 1)
  }

  lemma {:induction false} CountIsOurs(env: Env, lib: ElementsLibrary, cfg: Config, t: TokenState, tx: Transaction,
                                       facts: seq<PsetFacts>, i: nat)
    requires i <= |facts|
    ensures var p := SignPsetFrom(env, lib, cfg, t, tx, facts, i);
            p.res.Ok? ==> p.res.value == OursFrom(cfg, facts, i)
    decreases |facts| - i
  {
    if i < |facts| {
      CountIsOurs(env, lib, cfg, SignPsetInput(env, lib, cfg, t, tx, facts[i], i).st, tx, facts, i + 1);
    }
  }

  // Input j carries our fingerprint.
  ghost predicate CarriesOurs(cfg: Config, facts: seq<PsetFacts>, j: nat) {
    j < |facts| && exists o :: o in facts[j].origins && o.fingerprint == cfg.fingerprint
  }

  lemma {:induction false} OursCounted(cfg: Config, facts: seq<PsetFacts>, i: nat)
    requires i <= |facts|
    ensures OursFrom(cfg, facts, i) == |set j | i <= j < |facts| && CarriesOurs(cfg, facts, j)|
    decreases |facts| - i
  {
    var all := set j | i <= j < |facts| && CarriesOurs(cfg, facts, j);
    if i < |facts| {
      var rest := set j | i + 1 <= j < |facts| && CarriesOurs(cfg, facts, j);
      FirstOrigin(facts[i].origins, cfg.fingerprint);
      OursCounted(cfg, facts, i + 1);
      assert all == if CarriesOurs(cfg, facts, i) then {i} + rest else rest;
    } else {
      assert all == {};
    }
  }

  lemma ReturnedCount(env: Env, lib: ElementsLibrary, cfg: Config, t: TokenState, pset: Pset)
    ensures var c := SignPset(env, lib, cfg, t, pset);
            c.res.Ok? ==>
              && c.res.value == OursFrom(cfg, PsetFactsOf(pset.inputs), 0)
              && c.res.value == |set j | 0 <= j < |pset.inputs| && CarriesOurs(cfg, PsetFactsOf(pset.inputs), j)|
  {
    var l := LoadPolicy(env, t, cfg.id);
    OursCounted(cfg, PsetFactsOf(pset.inputs), 0);
    if l.res.Ok? && lib.extract(pset).Some? {
      CountIsOurs(env, lib, cfg, l.st, lib.extract(pset).value, PsetFactsOf(pset.inputs), 0);
    }
  }

  // ------------------------------------------------------------------------------------------
  // Token and signatures
  // ------------------------------------------------------------------------------------------

  // Session keys the signed inputs leave behind, the intermediate keys of their paths.
  function PsetLeftover(cfg: Config, facts: seq<PsetFacts>, i: nat): nat
    requires i <= |facts|
    decreases |facts| - i
  {
    if i == |facts| then 0
    else
      var o := FindOrigin(facts[i].origins, cfg.fingerprint);
      (if o.Some? then Leftover(cfg, o.value.path) else 0) + PsetLeftover(cfg, facts, i + 1)
  }

  // The PSET loop, too, destroys only what it created, and an unrefused one that succeeds leaves
  // exactly the intermediate keys.
  lemma {:induction false} SignPsetToken(env: Env, lib: ElementsLibrary, cfg: Config, t: TokenState, tx: Transaction,
                                         facts: seq<PsetFacts>, i: nat)
    requires Ready(cfg, t) && i <= |facts|
    ensures var p := SignPsetFrom(env, lib, cfg, t, tx, facts, i);
            && Grows(t, p.st)
            && (p.res.Ok? && NoneFails(env, t, p.st) ==> |p.st.objs| == |t.objs| + PsetLeftover(cfg, facts, i))
    decreases |facts| - i
  {
    if i < |facts| {
      var a := SignPsetInput(env, lib, cfg, t, tx, facts[i], i);
      SignPsetInputToken(env, lib, cfg, t, tx, facts[i], i);
      if a.res.Ok? {
        SignPsetToken(env, lib, cfg, a.st, tx, facts, i + 1);
        GrowsTransitive(t, a.st, SignPsetFrom(env, lib, cfg, t, tx, facts, i).st);
      }
    }
  }

  lemma SignPsetInputToken(env: Env, lib: ElementsLibrary, cfg: Config, t: TokenState, tx: Transaction, f: PsetFacts,
                           i: nat)
    requires Ready(cfg, t)
    ensures var a := SignPsetInput(env, lib, cfg, t, tx, f, i);
            var o := FindOrigin(f.origins, cfg.fingerprint);
            && Grows(t, a.st)
            && (a.res.Ok? && NoneFails(env, t, a.st) ==>
                  |a.st.objs| == |t.objs| + if o.Some? then Leftover(cfg, o.value.path) else 0)
  {
    var task := PsetTaskOf(lib, cfg, tx, f, i);
    if task.Ok? && task.value.Some? {
      SignAtEffect(env, cfg, t, Relative(cfg, task.value.value.path), task.value.value.message);
    }
  }

  // The sighash type a PSET input is signed with: the stored one if it decodes, else SIGHASH_ALL.
  ghost function PsetTypeOf(lib: ElementsLibrary, f: PsetFacts): u32 {
    if f.sighashType.Some? && lib.typeOf(f.sighashType.value).Some? then lib.typeOf(f.sighashType.value).value else 1
  }

  // DER bytes of a signature by this key over the sighash of input i, and the sighash type in the
  // last byte.
  ghost predicate PsetOver(env: Env, lib: ElementsLibrary, tx: Transaction, f: PsetFacts, i: nat, key: Key,
                           bytes: seq<byte>)
  {
    var ty := PsetTypeOf(lib, f);
    && f.witnessScript.Some? && f.amount.Some?
    && exists g :: EcdsaBy(env, key, lib.segwitV0(tx, i, f.witnessScript.value, f.amount.value, ty), g)
                   && bytes == lib.der(g) + [ty % 256]
  }

  lemma PsetTaskMeaning(lib: ElementsLibrary, cfg: Config, tx: Transaction, f: PsetFacts, i: nat)
    ensures var r := PsetTaskOf(lib, cfg, tx, f, i);
            r.Ok? && r.value.Some? ==>
              && r.value.value.sighashType == PsetTypeOf(lib, f)
              && f.witnessScript.Some? && f.amount.Some?
              && r.value.value.message
                 == lib.segwitV0(tx, i, f.witnessScript.value, f.amount.value, PsetTypeOf(lib, f))
  {
  }

  // An entry made on input i: our key, and a signature by the key used for our path.
  ghost predicate SoundPset(env: Env, lib: ElementsLibrary, cfg: Config, fed: Key, tx: Transaction, f: PsetFacts,
                            i: nat, s: PsetSigs)
  {
    var o := FindOrigin(f.origins, cfg.fingerprint);
    forall pk :: pk in s ==>
      && o.Some? && |cfg.path| <= |o.value.path| && pk == o.value.pk
      && PsetOver(env, lib, tx, f, i, UsedKey(cfg, fed, o.value.path), s[pk])
  }

  // The key signing fills on an input, that of our origin.
  function PsetKeys(cfg: Config, f: PsetFacts): set<PubKey> {
    var o := FindOrigin(f.origins, cfg.fingerprint);
    if o.None? then {} else {o.value.pk}
  }

  // What was added to input i, and whether its turn or the loop succeeded.
  ghost predicate PsetDone(env: Env, lib: ElementsLibrary, cfg: Config, fed: Key, tx: Transaction, f: PsetFacts, i: nat,
                           s: PsetSigs, ok: bool)
  {
    && SoundPset(env, lib, cfg, fed, tx, f, i, s)
    && s.Keys <= PsetKeys(cfg, f) && (ok ==> s.Keys == PsetKeys(cfg, f))
  }

  lemma SignPsetInputDone(env: Env, lib: ElementsLibrary, cfg: Config, t: TokenState, tx: Transaction, f: PsetFacts,
                          i: nat)
    requires Ready(cfg, t)
    ensures var a := SignPsetInput(env, lib, cfg, t, tx, f, i);
            && Grows(t, a.st)
            && PsetDone(env, lib, cfg, FederationKey(cfg, t), tx, f, i, a.sigs, a.res.Ok?)
  {
    var task := PsetTaskOf(lib, cfg, tx, f, i);
    if task.Ok? && task.value.Some? {
      PsetTaskMeaning(lib, cfg, tx, f, i);
      SignAtEffect(env, cfg, t, Relative(cfg, task.value.value.path), task.value.value.message);
    }
  }

  // Every entry the PSET loop makes is sound and ours, whether or not the loop succeeds; one
  // that does fills every key of ours.
  lemma {:induction false} PsetSoundness(env: Env, lib: ElementsLibrary, cfg: Config, t: TokenState, tx: Transaction,
                                         facts: seq<PsetFacts>, i: nat, j: nat)
    requires Ready(cfg, t) && i <= j < |facts|
    ensures var p := SignPsetFrom(env, lib, cfg, t, tx, facts, i);
            PsetDone(env, lib, cfg, FederationKey(cfg, t), tx, facts[j], j, p.adds[j - i], p.res.Ok?)
    decreases |facts| - i
  {
    var a := SignPsetInput(env, lib, cfg, t, tx, facts[i], i);
    SignPsetInputDone(env, lib, cfg, t, tx, facts[i], i);
    if i == j {
      FirstPsetAdd(env, lib, cfg, t, tx, facts, i);
    } else {
      LaterPsetAdd(env, lib, cfg, t, tx, facts, i, j - i - 1);
      if a.res.Ok? {
        PsetSoundness(env, lib, cfg, a.st, tx, facts, i + 1, j);
      }
    }
  }

  // At the level of the call: the token keeps everything it held, the sig-rate record aside, and
  // an unrefused call that succeeds leaves exactly the intermediate keys.
  lemma PsetTokenAccounting(env: Env, lib: ElementsLibrary, cfg: Config, t: TokenState, pset: Pset)
    requires Ready(cfg, t) && Enumerates(env)
    ensures var c := SignPset(env, lib, cfg, t, pset);
            var name := ObjectLabel(cfg.id, SigRateSuffix);
            && Accounted(t, c.st, name)
            && (c.res.Ok? && NoneFails(env, t, c.st) ==>
                  |Others(c.st.objs, name)|
                  == |Others(t.objs, name)| + PsetLeftover(cfg, PsetFactsOf(pset.inputs), 0))
  {
    var l := LoadPolicy(env, t, cfg.id);
    LoadPolicyFrame(env, t, cfg.id);
    PsetCallShape(env, lib, cfg, t, pset);
    var name := ObjectLabel(cfg.id, SigRateSuffix);
    if l.res.Ok? && lib.extract(pset).Some? {
      PsetLoopToken(env, lib, cfg, t, pset);
      var p := PsetLoopOf(env, lib, cfg, t, pset);
      FinishPsetFrame(env, cfg, l.res.value, p, pset.inputs);
      GrowsKeepsRecords(t, p.st, name);
      GrowsAccounted(t, p.st, SignPset(env, lib, cfg, t, pset).st, name);
    } else {
      GrowsAccounted(t, t, l.st, name);
    }
  }

  lemma PsetLoopToken(env: Env, lib: ElementsLibrary, cfg: Config, t: TokenState, pset: Pset)
    requires Ready(cfg, t) && lib.extract(pset).Some?
    ensures var p := PsetLoopOf(env, lib, cfg, t, pset);
            && Grows(t, p.st)
            && (p.res.Ok? && NoneFails(env, t, p.st) ==>
                  |p.st.objs| == |t.objs| + PsetLeftover(cfg, PsetFactsOf(pset.inputs), 0))
  {
    LoadPolicyFrame(env, t, cfg.id);
    var l := LoadPolicy(env, t, cfg.id);
    SignPsetToken(env, lib, cfg, l.st, lib.extract(pset).value, PsetFactsOf(pset.inputs), 0);
  }

  lemma FinishPsetFrame(env: Env, cfg: Config, policy: HsmPolicy, p: PsetPlan, inputs: seq<PsetInput>)
    requires Valid(p.st) && Enumerates(env) && |p.adds| == |inputs|
    ensures var c := FinishPset(env, cfg, policy, p, inputs);
            && Valid(c.st) && c.st.log == p.st.log && c.st.ticks >= p.st.ticks
            && Others(c.st.objs, ObjectLabel(cfg.id, SigRateSuffix))
               == Others(p.st.objs, ObjectLabel(cfg.id, SigRateSuffix))
            && (c.res.Ok? ==> p.res.Ok?)
  {
    CheckAndRecordFrame(env, p.st, cfg.id, policy);
  }

  // The resulting PSET is the old one with sound entries of ours laid over it, all of ours if the
  // call succeeds.
  lemma PsetCallSound(env: Env, lib: ElementsLibrary, cfg: Config, t: TokenState, pset: Pset, i: nat)
    returns (e: PsetSigs)
    requires Ready(cfg, t) && i < |pset.inputs| && lib.extract(pset).Some?
    ensures var c := SignPset(env, lib, cfg, t, pset);
            && |c.inputs| == |pset.inputs| && c.inputs[i] == AddPset(pset.inputs[i], e)
            && PsetDone(env, lib, cfg, FederationKey(cfg, t), lib.extract(pset).value, pset.inputs[i].facts, i, e,
                        c.res.Ok?)
  {
    e := map[];
    if LoadPolicy(env, t, cfg.id).res.Ok? {
      e := PsetLoopOf(env, lib, cfg, t, pset).adds[i];
      PsetFills(env, lib, cfg, t, pset, i);
      PsetLoopSigs(env, lib, cfg, t, pset, i);
      PsetOkLoopOk(env, lib, cfg, t, pset);
    } else {
      PsetUnread(env, lib, cfg, t, pset, i);
    }
  }

  lemma PsetLoopSigs(env: Env, lib: ElementsLibrary, cfg: Config, t: TokenState, pset: Pset, i: nat)
    requires Ready(cfg, t) && i < |pset.inputs| && lib.extract(pset).Some?
    ensures var p := PsetLoopOf(env, lib, cfg, t, pset);
            PsetDone(env, lib, cfg, FederationKey(cfg, t), lib.extract(pset).value, pset.inputs[i].facts, i, p.adds[i],
                     p.res.Ok?)
  {
    LoadPolicyFrame(env, t, cfg.id);
    var u := LoadPolicy(env, t, cfg.id).st;
    PsetSoundness(env, lib, cfg, u, lib.extract(pset).value, PsetFactsOf(pset.inputs), 0, i);
  }

  lemma PsetOkLoopOk(env: Env, lib: ElementsLibrary, cfg: Config, t: TokenState, pset: Pset)
    requires lib.extract(pset).Some?
    ensures SignPset(env, lib, cfg, t, pset).res.Ok? ==> PsetLoopOf(env, lib, cfg, t, pset).res.Ok?
  {
    PsetCallShape(env, lib, cfg, t, pset);
  }

  lemma PsetUnread(env: Env, lib: ElementsLibrary, cfg: Config, t: TokenState, pset: Pset, i: nat)
    requires i < |pset.inputs| && LoadPolicy(env, t, cfg.id).res.Err?
    ensures var c := SignPset(env, lib, cfg, t, pset);
            c.res.Err? && |c.inputs| == |pset.inputs| && c.inputs[i] == AddPset(pset.inputs[i], map[])
  {
    assert pset.inputs[i].partialSigs + map[] == pset.inputs[i].partialSigs;
  }

  // Whatever the outcome nothing but the entry under our own key changes on an input; a call that
  // succeeds has filled exactly that one on every input with an origin of ours.
  lemma PsetExactEffect(env: Env, lib: ElementsLibrary, cfg: Config, t: TokenState, pset: Pset, i: nat)
    requires Ready(cfg, t) && i < |pset.inputs|
    ensures var c := SignPset(env, lib, cfg, t, pset);
            var a, b := pset.inputs[i], c.inputs[i];
            && b.facts == a.facts
            && a.partialSigs.Keys <= b.partialSigs.Keys <= a.partialSigs.Keys + PsetKeys(cfg, a.facts)
            && (forall k :: k in a.partialSigs && k !in PsetKeys(cfg, a.facts) ==>
                  b.partialSigs[k] == a.partialSigs[k])
            && (c.res.Ok? ==> b.partialSigs.Keys == a.partialSigs.Keys + PsetKeys(cfg, a.facts))
            && (c.res.Ok? && (exists o :: o in a.facts.origins && o.fingerprint == cfg.fingerprint) ==>
                  exists o :: o in a.facts.origins && o.fingerprint == cfg.fingerprint
                              && b.partialSigs.Keys == a.partialSigs.Keys + {o.pk})
            && ((forall o :: o in a.facts.origins ==> o.fingerprint != cfg.fingerprint) ==> b == a)
  {
    FirstOrigin(pset.inputs[i].facts.origins, cfg.fingerprint);
    if lib.extract(pset).Some? {
      var _ := PsetCallSound(env, lib, cfg, t, pset, i);
    } else {
      PsetCallShape(env, lib, cfg, t, pset);
    }
  }

  // Our public key with the DER bytes of a signature by the key at the full path of our origin.
  ghost predicate PsetOfMaster(env: Env, lib: ElementsLibrary, cfg: Config, master: nat, tx: Transaction, f: PsetFacts,
                               i: nat, pk: PubKey, bytes: seq<byte>)
  {
    var o := FindOrigin(f.origins, cfg.fingerprint);
    o.Some? && pk == o.value.pk && PsetOver(env, lib, tx, f, i, Key(master, o.value.path), bytes)
  }

  // For a signer whose handle is the key at the federation path of a master, on any outcome; and
  // after a call that succeeds the entry under our own key is new, whatever was there before.
  lemma PsetSignedByMaster(env: Env, lib: ElementsLibrary, cfg: Config, t: TokenState, pset: Pset, master: nat, i: nat,
                           pk: PubKey)
    requires DescendsFrom(env, cfg, t, master) && i < |pset.inputs| && lib.extract(pset).Some?
    requires var o := FindOrigin(pset.inputs[i].facts.origins, cfg.fingerprint);
             o.Some? ==> cfg.path <= o.value.path
    ensures var a, b := pset.inputs[i], SignPset(env, lib, cfg, t, pset).inputs[i];
            pk in b.partialSigs ==>
              || (pk in a.partialSigs && a.partialSigs[pk] == b.partialSigs[pk])
              || PsetOfMaster(env, lib, cfg, master, lib.extract(pset).value, a.facts, i, pk, b.partialSigs[pk])
    ensures var c := SignPset(env, lib, cfg, t, pset);
            var a, b := pset.inputs[i], c.inputs[i];
            c.res.Ok? && pk in PsetKeys(cfg, a.facts) ==>
              && pk in b.partialSigs
              && PsetOfMaster(env, lib, cfg, master, lib.extract(pset).value, a.facts, i, pk, b.partialSigs[pk])
  {
    var e := PsetCallSound(env, lib, cfg, t, pset, i);
    if pk in e {
      SoundPsetOfMaster(env, lib, cfg, t, lib.extract(pset).value, pset.inputs[i].facts, master, i, e, pk);
    }
  }

  lemma SoundPsetOfMaster(env: Env, lib: ElementsLibrary, cfg: Config, t: TokenState, tx: Transaction, f: PsetFacts,
                          master: nat, i: nat, e: PsetSigs, pk: PubKey)
    requires DescendsFrom(env, cfg, t, master) && SoundPset(env, lib, cfg, FederationKey(cfg, t), tx, f, i, e)
    requires pk in e
    requires var o := FindOrigin(f.origins, cfg.fingerprint);
             o.Some? ==> cfg.path <= o.value.path
    ensures PsetOfMaster(env, lib, cfg, master, tx, f, i, pk, e[pk])
  {
    StrippedPathKey(cfg, master, FindOrigin(f.origins, cfg.fingerprint).value.path);
  }

  // The PSET loop obeys no rule of the policy but the ceiling.
  lemma PsetIgnoresRules(env: Env, lib: ElementsLibrary, cfg: Config, t: TokenState, pset: Pset, p: HsmPolicy,
                         q: HsmPolicy)
    requires p.maxSignaturesPerHour == q.maxSignaturesPerHour
    ensures SignPsetUnder(env, lib, cfg, t, p, pset) == SignPsetUnder(env, lib, cfg, t, q, pset)
  {
  }
}
