// What one call does to the sig-rate counter, from any token.
module RateCalls {
  import opened Results
  import opened Bip32
  import opened Policy
  import opened Labels
  import opened TokenModel
  import opened Store
  import opened SigRate
  import opened Backend
  import opened PsbtModel
  import opened Signer
  import opened SigningEffect
  import opened SigningTheorems
  import opened Elements
  import opened Clones

  // ------------------------------------------------------------------------------------------
  // What is known of the token between calls
  // ------------------------------------------------------------------------------------------

  ghost predicate CeilingAtMost(p: HsmPolicy, m: nat) {
    p.maxSignaturesPerHour.Some? ==> p.maxSignaturesPerHour.value <= m
  }

  // No policy record under this label sets a ceiling above m.
  ghost predicate StoredCeilings(objs: map<Handle, Object>, id: string, m: nat) {
    forall h :: h in Matching(objs, Data, ObjectLabel(id, PolicySuffix))
                && objs[h].value.Some? && objs[h].value.value.PolicyJson?
      ==> CeilingAtMost(objs[h].value.value.policy, m)
  }

  ghost predicate Usable(w: World, t: TokenState, m: nat) {
    && Ready(w.cfg, t) && t.objs[w.cfg.handle].kind != Data
    && Enumerates(w.env) && StoredCeilings(t.objs, w.cfg.id, m)
  }

  ghost predicate JobCeiling(job: Job, m: nat) {
    job.WritePolicy? ==> CeilingAtMost(job.policy, m)
  }

  // A change confined to the records under one name.
  ghost predicate Confined(w: World, t: TokenState, u: TokenState, name: string) {
    && Valid(u) && t.ticks <= u.ticks && Others(u.objs, name) == Others(t.objs, name)
  }

  lemma ReadPolicyBounded(w: World, t: TokenState, m: nat)
    requires Usable(w, t, m)
    ensures var l := LoadPolicy(w.env, t, w.cfg.id);
            l.res.Ok? ==> CeilingAtMost(l.res.value, m)
  {
    var found := Matching(t.objs, Data, ObjectLabel(w.cfg.id, PolicySuffix));
    var hs := w.env.order(t.ticks, found);
    assert Lists(hs, found);
    if hs != [] {
      assert hs[0] in hs;
      assert hs[0] in found;
    }
  }

  // Session keys and records under another name leave the policy records and the signer alone.
  lemma UsableKept(w: World, t: TokenState, u: TokenState, m: nat)
    requires Usable(w, t, m) && (Grows(t, u) || Confined(w, t, u, ObjectLabel(w.cfg.id, SigRateSuffix)))
    ensures Usable(w, u, m)
  {
    var n, r := ObjectLabel(w.cfg.id, PolicySuffix), ObjectLabel(w.cfg.id, SigRateSuffix);
    if Grows(t, u) {
      GrowsKeepsRecords(t, u, n);
    } else {
      if n == r {
        ObjectLabelInjective(w.cfg.id, PolicySuffix, w.cfg.id, SigRateSuffix);
      }
      OthersMatch(t.objs, u.objs, r, n);
      assert w.cfg.handle in Others(t.objs, r);
      assert Others(u.objs, r)[w.cfg.handle] == Others(t.objs, r)[w.cfg.handle];
    }
  }

  // Time has passed, and the sig-rate records are what they were.
  ghost predicate Untouched(w: World, t: TokenState, u: TokenState) {
    var name := ObjectLabel(w.cfg.id, SigRateSuffix);
    t.ticks <= u.ticks && RecordsOf(u.objs, name) == RecordsOf(t.objs, name)
  }

  lemma SameRecordsSameCounter(a: map<Handle, Object>, b: map<Handle, Object>, id: string)
    requires RecordsOf(a, ObjectLabel(id, SigRateSuffix)) == RecordsOf(b, ObjectLabel(id, SigRateSuffix))
    ensures NoCounter(a, id) <==> NoCounter(b, id)
    ensures forall ts :: CounterIs(a, id, ts) ==> CounterIs(b, id, ts)
    ensures forall n: nat :: ListsAtMost(a, id, n) ==> ListsAtMost(b, id, n)
  {
    var name := ObjectLabel(id, SigRateSuffix);
    assert RecordsOf(a, name).Keys == Matching(a, Data, name);
    assert RecordsOf(b, name).Keys == Matching(b, Data, name);
    assert forall h :: h in Matching(a, Data, name) ==> RecordsOf(a, name)[h] == a[h];
    assert forall h :: h in Matching(b, Data, name) ==> RecordsOf(b, name)[h] == b[h];
    forall ts | CounterIs(a, id, ts)
      ensures CounterIs(b, id, ts)
    {
      if h :| Matching(a, Data, name) == {h} && a[h].value == Some(SigRateJson(ts)) {
        assert h in Matching(a, Data, name);
      }
    }
  }

  lemma GrowsUntouched(w: World, t: TokenState, u: TokenState, m: nat)
    requires Usable(w, t, m) && Grows(t, u)
    ensures Usable(w, u, m) && Untouched(w, t, u)
  {
    UsableKept(w, t, u, m);
    GrowsKeepsRecords(t, u, ObjectLabel(w.cfg.id, SigRateSuffix));
  }

  // ------------------------------------------------------------------------------------------
  // The rate check of a call
  // ------------------------------------------------------------------------------------------

  // The policy the check runs under and the state it starts in.
  datatype RateCheck = RateCheck(policy: HsmPolicy, st: TokenState)

  function CheckOf(w: World, t: TokenState, job: Job): Option<RateCheck> {
    var l := LoadPolicy(w.env, t, w.cfg.id);
    match job
    case SignBitcoin(psbt) =>
      if !Passes(w.env, w.cfg, t, psbt.tx) then None
      else
        var p := LoopOf(w.env, w.lib, w.cfg, t, psbt);
        if p.res == Ok(true) then Some(RateCheck(l.res.value, p.st)) else None
    case SignElements(pset) =>
      if l.res.Err? || w.elib.extract(pset).None? then None
      else
        var p := PsetLoopOf(w.env, w.elib, w.cfg, t, pset);
        if p.res.Ok? && p.res.value > 0 then Some(RateCheck(l.res.value, p.st)) else None
    case ReadPolicy => None
    case WritePolicy(_) => None
  }

  // A call that comes to a rate check comes to it with the records it began with, and ends as the
  // check does. Any other call records nothing, leaves the records alone, and does not panic on
  // the count.
  ghost predicate Decided(w: World, t: TokenState, m: nat, o: Outcome, c: Option<RateCheck>) {
    if c.Some? then
      && Usable(w, c.value.st, m) && Untouched(w, t, c.value.st) && CeilingAtMost(c.value.policy, m)
      && o == OfRate(CheckAndRecord(w.env, c.value.st, w.cfg.id, c.value.policy))
    else
      && Usable(w, o.st, m) && Untouched(w, t, o.st) && o.recorded.None? && o.res != Err(CounterPanic)
  }

  lemma CheckDecides(w: World, t: TokenState, job: Job, m: nat)
    requires Usable(w, t, m) && JobCeiling(job, m)
    ensures Decided(w, t, m, Atomic(w, job, t), CheckOf(w, t, job))
  {
    match job
    case SignBitcoin(psbt) => BitcoinDecides(w, t, psbt, m);
    case SignElements(pset) => ElementsDecides(w, t, pset, m);
    case ReadPolicy =>
      LoadPolicyFrame(w.env, t, w.cfg.id);
      GrowsUntouched(w, t, LoadPolicy(w.env, t, w.cfg.id).st, m);
    case WritePolicy(p) => WritePolicyDecides(w, t, p, m);
  }

  lemma BitcoinDecides(w: World, t: TokenState, psbt: Psbt, m: nat)
    requires Usable(w, t, m)
    ensures Decided(w, t, m, Atomic(w, SignBitcoin(psbt), t), CheckOf(w, t, SignBitcoin(psbt)))
  {
    var l := LoadPolicy(w.env, t, w.cfg.id);
    LoadPolicyFrame(w.env, t, w.cfg.id);
    ReadPolicyBounded(w, t, m);
    CallShape(w.env, w.lib, w.cfg, t, psbt);
    if Passes(w.env, w.cfg, t, psbt.tx) {
      var p := LoopOf(w.env, w.lib, w.cfg, t, psbt);
      LoopToken(w.env, w.lib, w.cfg, t, psbt);
      GrowsUntouched(w, t, p.st, m);
      LoopNeverPanics(w.env, w.lib, w.cfg, l.st, psbt.tx, Facts(psbt.inputs), 0);
      FinishDecides(w, l.res.value, p, psbt.inputs);
    } else {
      GrowsUntouched(w, t, l.st, m);
      GateNeverPanics(w, t, psbt);
    }
  }

  lemma FinishDecides(w: World, policy: HsmPolicy, p: Plan, inputs: seq<PsbtInput>)
    requires |p.adds| == |inputs|
    ensures var o := OfCall(FinishCall(w.env, w.cfg, policy, p, inputs));
            if p.res == Ok(true) then o == OfRate(CheckAndRecord(w.env, p.st, w.cfg.id, policy))
            else o == Outcome(if p.res.Ok? then Ok(()) else Err(p.res.error), None, p.st)
  {
  }

  lemma ElementsDecides(w: World, t: TokenState, pset: Pset, m: nat)
    requires Usable(w, t, m)
    ensures Decided(w, t, m, Atomic(w, SignElements(pset), t), CheckOf(w, t, SignElements(pset)))
  {
    var l := LoadPolicy(w.env, t, w.cfg.id);
    LoadPolicyFrame(w.env, t, w.cfg.id);
    ReadPolicyBounded(w, t, m);
    PsetCallShape(w.env, w.elib, w.cfg, t, pset);
    if l.res.Ok? && w.elib.extract(pset).Some? {
      var p := PsetLoopOf(w.env, w.elib, w.cfg, t, pset);
      PsetLoopToken(w.env, w.elib, w.cfg, t, pset);
      GrowsUntouched(w, t, p.st, m);
      PsetLoopNeverPanics(w.env, w.elib, w.cfg, l.st, w.elib.extract(pset).value, PsetFactsOf(pset.inputs), 0);
      FinishPsetDecides(w, l.res.value, p, pset.inputs);
    } else {
      GrowsUntouched(w, t, l.st, m);
      PsetGateNeverPanics(w, t, pset);
    }
  }

  lemma FinishPsetDecides(w: World, policy: HsmPolicy, p: PsetPlan, inputs: seq<PsetInput>)
    requires |p.adds| == |inputs|
    ensures var o := OfPsetCall(FinishPset(w.env, w.cfg, policy, p, inputs));
            if p.res.Ok? && p.res.value > 0 then o == OfRate(CheckAndRecord(w.env, p.st, w.cfg.id, policy))
            else o == Outcome(if p.res.Ok? then Ok(()) else Err(p.res.error), None, p.st)
  {
  }

  // Replacing the policy does not touch the counter.
  lemma WritePolicyDecides(w: World, t: TokenState, p: HsmPolicy, m: nat)
    requires Usable(w, t, m) && CeilingAtMost(p, m)
    ensures Decided(w, t, m, Atomic(w, WritePolicy(p), t), None)
  {
    var n, r := ObjectLabel(w.cfg.id, PolicySuffix), ObjectLabel(w.cfg.id, SigRateSuffix);
    if n == r {
      ObjectLabelInjective(w.cfg.id, PolicySuffix, w.cfg.id, SigRateSuffix);
    }
    var s := SaveData(w.env, t, n, PolicyJson(p));
    SaveEffect(w.env, t, n, PolicyJson(p));
    SaveKeepsObjects(w.env, t, n, PolicyJson(p));
    OthersMatch(t.objs, s.st.objs, n, r);
    assert w.cfg.handle in Others(t.objs, n);
    assert Others(s.st.objs, n)[w.cfg.handle] == Others(t.objs, n)[w.cfg.handle];
  }

  // ------------------------------------------------------------------------------------------
  // Errors of the loops
  // ------------------------------------------------------------------------------------------

  lemma SignAtNeverPanics(env: Env, cfg: Config, t: TokenState, relative: Path, msg: Message)
    ensures SignAt(env, cfg, t, relative, msg).res != Err(CounterPanic)
  {
    DeriveOnlyRefused(env, t, cfg.handle, relative);
  }

  lemma {:induction false} PrevoutsNeverPanic(facts: seq<InputFacts>, from: nat)
    requires from <= |facts|
    ensures Prevouts(facts, from) != Err(CounterPanic)
    decreases |facts| - from
  {
    if from < |facts| {
      PrevoutsNeverPanic(facts, from + 1);
    }
  }

  lemma {:induction false} LeavesNeverPanic(env: Env, lib: Library, cfg: Config, t: TokenState, h: Handle, o: TapOrigin,
                                            c: TapContext, leaves: seq<LeafHash>)
    ensures SignLeaves(env, lib, cfg, t, h, o, c, leaves).res != Err(CounterPanic)
    decreases |leaves|
  {
    if leaves != [] {
      LeavesNeverPanic(env, lib, cfg, SignLeaf(env, lib, cfg, t, h, o, c, leaves[0]).st, h, o, c, leaves[1..]);
    }
  }

  lemma TapNeverPanics(env: Env, lib: Library, cfg: Config, t: TokenState, h: Handle, o: TapOrigin, tx: UnsignedTx,
                       facts: seq<InputFacts>, i: nat)
    requires i < |facts|
    ensures SignTapWith(env, lib, cfg, t, h, o, tx, facts, i).res != Err(CounterPanic)
  {
    PrevoutsNeverPanic(facts, 0);
    var c := TapContextOf(lib, tx, facts, i);
    if c.Ok? {
      LeavesNeverPanic(env, lib, cfg, t, h, o, c.value, o.leaves);
    }
  }

  lemma InputNeverPanics(env: Env, lib: Library, cfg: Config, t: TokenState, tx: UnsignedTx, facts: seq<InputFacts>,
                         i: nat)
    requires i < |facts|
    ensures SignInput(env, lib, cfg, t, tx, facts, i).res != Err(CounterPanic)
  {
    if IsTaproot(facts[i]) {
      var o := FindTapOrigin(facts[i].tapOrigins, cfg.fingerprint);
      if o.Some? && |cfg.path| <= |o.value.path| {
        var d := SigningHandle(env, cfg, t, o.value.path[|cfg.path|..]);
        DeriveOnlyRefused(env, t, cfg.handle, o.value.path[|cfg.path|..]);
        if d.res.Ok? {
          TapNeverPanics(env, lib, cfg, d.st, d.res.value, o.value, tx, facts, i);
        }
      }
    } else {
      var task := EcdsaTaskOf(lib, cfg, tx, facts[i], i);
      if task.Ok? && task.value.Some? {
        SignAtNeverPanics(env, cfg, t, task.value.value.path[|cfg.path|..], task.value.value.message);
      }
    }
  }

  lemma {:induction false} LoopNeverPanics(env: Env, lib: Library, cfg: Config, t: TokenState, tx: UnsignedTx,
                                           facts: seq<InputFacts>, i: nat)
    requires i <= |facts|
    ensures SignFrom(env, lib, cfg, t, tx, facts, i).res != Err(CounterPanic)
    decreases |facts| - i
  {
    if i < |facts| {
      InputNeverPanics(env, lib, cfg, t, tx, facts, i);
      LoopNeverPanics(env, lib, cfg, SignInput(env, lib, cfg, t, tx, facts, i).st, tx, facts, i + 1);
    }
  }

  lemma {:induction false} PsetLoopNeverPanics(env: Env, lib: ElementsLibrary, cfg: Config, t: TokenState,
                                               tx: Transaction, facts: seq<PsetFacts>, i: nat)
    requires i <= |facts|
    ensures SignPsetFrom(env, lib, cfg, t, tx, facts, i).res != Err(CounterPanic)
    decreases |facts| - i
  {
    if i < |facts| {
      var task := PsetTaskOf(lib, cfg, tx, facts[i], i);
      if task.Ok? && task.value.Some? {
        SignAtNeverPanics(env, cfg, t, task.value.value.path[|cfg.path|..], task.value.value.message);
      }
      PsetLoopNeverPanics(env, lib, cfg, SignPsetInput(env, lib, cfg, t, tx, facts[i], i).st, tx, facts, i + 1);
    }
  }

  lemma GateNeverPanics(w: World, t: TokenState, psbt: Psbt)
    requires !Passes(w.env, w.cfg, t, psbt.tx)
    ensures SignTransaction(w.env, w.lib, w.cfg, t, psbt).res != Err(CounterPanic)
  {
  }

  lemma PsetGateNeverPanics(w: World, t: TokenState, pset: Pset)
    requires LoadPolicy(w.env, t, w.cfg.id).res.Err? || w.elib.extract(pset).None?
    ensures SignPset(w.env, w.elib, w.cfg, t, pset).res != Err(CounterPanic)
  {
  }

  // ------------------------------------------------------------------------------------------
  // One call
  // ------------------------------------------------------------------------------------------

  // The call was admitted on the list `ts` under a ceiling of at most m, at a time between its
  // first and its last token call, and left exactly the admitted list.
  ghost predicate Recording(w: World, t: TokenState, ts: seq<nat>, o: Outcome, m: nat) {
    && o.recorded.Some?
    && exists k: nat, max: u32 ::
         && t.ticks <= k <= o.st.ticks && w.env.clock(k) == o.recorded.value && max <= m
         && Admit(max, ts, o.recorded.value).Ok?
         && CounterIs(o.st.objs, w.cfg.id, Admit(max, ts, o.recorded.value).value)
  }

  // The ceiling under which a recorded call was admitted.
  lemma CeilingOf(w: World, t: TokenState, ts: seq<nat>, o: Outcome, m: nat) returns (max: u32)
    requires Recording(w, t, ts, o, m)
    ensures max <= m && Admit(max, ts, o.recorded.value).Ok?
    ensures CounterIs(o.st.objs, w.cfg.id, Admit(max, ts, o.recorded.value).value)
    ensures ClockMonotone(w.env) ==> w.env.clock(t.ticks) <= o.recorded.value <= w.env.clock(o.st.ticks)
  {
    var k: nat, max': u32 :| t.ticks <= k <= o.st.ticks && w.env.clock(k) == o.recorded.value && max' <= m
                          && Admit(max', ts, o.recorded.value).Ok?
                          && CounterIs(o.st.objs, w.cfg.id, Admit(max', ts, o.recorded.value).value);
    max := max';
  }

  // Whatever records the token holds: the signer stays usable, and a call that records was
  // admitted on some list.
  lemma AnyStep(w: World, t: TokenState, job: Job, m: nat)
    requires Usable(w, t, m) && JobCeiling(job, m)
    ensures var o := Atomic(w, job, t);
            && Usable(w, o.st, m) && t.ticks <= o.st.ticks
            && (o.recorded.Some? ==> exists ts :: Recording(w, t, ts, o, m))
  {
    CheckDecides(w, t, job, m);
    var o, c := Atomic(w, job, t), CheckOf(w, t, job);
    if c.Some? {
      CheckAndRecordFrame(w.env, c.value.st, w.cfg.id, c.value.policy);
      UsableKept(w, c.value.st, o.st, m);
      if o.recorded.Some? {
        var ts := RecordedOn(w, c.value.st, c.value.policy, o, m);
        assert Recording(w, t, ts, o, m);
      }
    }
  }

  lemma RecordedOn(w: World, t: TokenState, policy: HsmPolicy, o: Outcome, m: nat) returns (ts: seq<nat>)
    requires Valid(t) && Enumerates(w.env) && CeilingAtMost(policy, m)
    requires o == OfRate(CheckAndRecord(w.env, t, w.cfg.id, policy)) && o.recorded.Some?
    ensures Recording(w, t, ts, o, m) && LoadSigrate(w.env, t, w.cfg.id).res == Ok(ts)
  {
    CheckRecords(w.env, t, w.cfg.id, policy);
    var l := LoadSigrate(w.env, t, w.cfg.id);
    ts := l.res.value;
    assert w.env.clock(l.st.ticks) == o.recorded.value && policy.maxSignaturesPerHour.value <= m;
  }

  // With one readable list on the token: a call that does not record leaves it or loses it, the
  // latter after a refused token call; one that records was admitted on that list.
  ghost predicate RateStep(w: World, t: TokenState, ts: seq<nat>, o: Outcome, m: nat) {
    && t.ticks <= o.st.ticks
    && (o.recorded.None? ==> CounterIs(o.st.objs, w.cfg.id, ts) || NoCounter(o.st.objs, w.cfg.id))
    && (o.recorded.Some? ==> Recording(w, t, ts, o, m))
    && (o.recorded.None? && !CounterIs(o.st.objs, w.cfg.id, ts) ==>
          exists k :: t.ticks <= k < o.st.ticks && w.env.fails(k))
  }

  lemma JobStep(w: World, t: TokenState, ts: seq<nat>, job: Job, m: nat)
    requires Usable(w, t, m) && CounterIs(t.objs, w.cfg.id, ts) && JobCeiling(job, m)
    ensures var o := Atomic(w, job, t);
            RateStep(w, t, ts, o, m) && Usable(w, o.st, m)
  {
    AnyStep(w, t, job, m);
    CheckDecides(w, t, job, m);
    var o, c := Atomic(w, job, t), CheckOf(w, t, job);
    if c.Some? {
      SameRecordsSameCounter(t.objs, c.value.st.objs, w.cfg.id);
      CheckStep(w, t, c.value.st, ts, c.value.policy, m);
    } else {
      SameRecordsSameCounter(t.objs, o.st.objs, w.cfg.id);
    }
  }

  lemma CheckStep(w: World, t: TokenState, u: TokenState, ts: seq<nat>, policy: HsmPolicy, m: nat)
    requires Valid(u) && Enumerates(w.env) && t.ticks <= u.ticks && CounterIs(u.objs, w.cfg.id, ts)
    requires CeilingAtMost(policy, m)
    ensures RateStep(w, t, ts, OfRate(CheckAndRecord(w.env, u, w.cfg.id, policy)), m)
  {
    var o := OfRate(CheckAndRecord(w.env, u, w.cfg.id, policy));
    CheckAndRecordFrame(w.env, u, w.cfg.id, policy);
    CheckRecords(w.env, u, w.cfg.id, policy);
    CheckFails(w.env, u, w.cfg.id, policy, ts);
    LoadCounter(w.env, u, w.cfg.id, ts);
    if o.recorded.Some? {
      var us := RecordedOn(w, u, policy, o, m);
    }
  }

  // From any token: no stored list grows beyond the largest ceiling, and if none has 2^32 entries
  // the conversion of the count does not panic.
  lemma JobKeepsLists(w: World, t: TokenState, job: Job, m: nat, n: nat)
    requires Usable(w, t, m) && JobCeiling(job, m) && ListsAtMost(t.objs, w.cfg.id, n) && m <= n
    ensures var o := Atomic(w, job, t);
            && ListsAtMost(o.st.objs, w.cfg.id, n)
            && (n < 0x1_0000_0000 ==> o.res != Err(CounterPanic))
  {
    CheckDecides(w, t, job, m);
    var o, c := Atomic(w, job, t), CheckOf(w, t, job);
    if c.Some? {
      SameRecordsSameCounter(t.objs, c.value.st.objs, w.cfg.id);
      CheckKeepsLists(w.env, c.value.st, w.cfg.id, c.value.policy, n);
      LoadedAtMost(w.env, c.value.st, w.cfg.id, n);
      CheckPanics(w.env, c.value.st, w.cfg.id, c.value.policy);
    } else {
      SameRecordsSameCounter(t.objs, o.st.objs, w.cfg.id);
    }
  }

  // What the counter counts: one entry for every call that succeeds having something to sign
  // while a ceiling is set, however many signatures it makes, and none for any other call.
  lemma RecordedIff(w: World, t: TokenState, psbt: Psbt)
    requires Ready(w.cfg, t)
    ensures var c := SignTransaction(w.env, w.lib, w.cfg, t, psbt);
            c.recorded.Some? <==>
              && c.res.Ok?
              && LoadPolicy(w.env, t, w.cfg.id).res.value.maxSignaturesPerHour.Some?
              && exists j :: 0 <= j < |psbt.inputs| && Expects(w.cfg, psbt.inputs[j].facts)
  {
    LoadPolicyFrame(w.env, t, w.cfg.id);
    CallShape(w.env, w.lib, w.cfg, t, psbt);
    if Passes(w.env, w.cfg, t, psbt.tx) {
      SignFromReports(w.env, w.lib, w.cfg, LoadPolicy(w.env, t, w.cfg.id).st, psbt.tx, Facts(psbt.inputs), 0);
    }
  }

  lemma RecordedCount(w: World, t: TokenState, pset: Pset)
    ensures var c := SignPset(w.env, w.elib, w.cfg, t, pset);
            c.recorded.Some? <==>
              && c.res.Ok?
              && LoadPolicy(w.env, t, w.cfg.id).res.value.maxSignaturesPerHour.Some?
              && OursFrom(w.cfg, PsetFactsOf(pset.inputs), 0) > 0
  {
    ReturnedCount(w.env, w.elib, w.cfg, t, pset);
  }

  // The same for a PSET call.
  lemma RecordedPsetIff(w: World, t: TokenState, pset: Pset)
    ensures var c := SignPset(w.env, w.elib, w.cfg, t, pset);
            c.recorded.Some? <==>
              && c.res.Ok?
              && LoadPolicy(w.env, t, w.cfg.id).res.value.maxSignaturesPerHour.Some?
              && exists j, o :: 0 <= j < |pset.inputs| && o in pset.inputs[j].facts.origins
                                && o.fingerprint == w.cfg.fingerprint
  {
    RecordedCount(w, t, pset);
    OursPositive(w.cfg, PsetFactsOf(pset.inputs), 0);
  }

  lemma {:induction false} OursPositive(cfg: Config, facts: seq<PsetFacts>, i: nat)
    requires i <= |facts|
    ensures OursFrom(cfg, facts, i) > 0 <==>
              exists j, o :: i <= j < |facts| && o in facts[j].origins && o.fingerprint == cfg.fingerprint
    decreases |facts| - i
  {
    if i < |facts| {
      FirstOrigin(facts[i].origins, cfg.fingerprint);
      OursPositive(cfg, facts, i + 1);
    }
  }
}
