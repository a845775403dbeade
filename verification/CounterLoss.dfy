// When a check loses the counter, and what that costs.
module CounterLoss {
  import opened Results
  import opened Policy
  import opened Labels
  import opened TokenModel
  import opened Store
  import opened SigRate

  // The token serves a check that starts with call k up to the destroy of the old record, and
  // refuses the create of the admitted one.
  predicate SaveCut(env: Env, k: nat, max: u32, ts: seq<nat>) {
    Served(env, k, 4) && Admit(max, ts, env.clock(k + 2)).Ok? && env.fails(k + 4)
  }

  lemma LoadOutcome(env: Env, t: TokenState, id: string, ts: seq<nat>)
    requires Enumerates(env) && CounterIs(t.objs, id, ts)
    ensures var l := LoadSigrate(env, t, id);
            var n := if ts == [] then 1 else 2;
            && (l.res == Ok(ts) <==> Served(env, t.ticks, n)) && (l.res.Ok? ==> l.st == t.(ticks := t.ticks + n))
            && l.st.objs == t.objs && (l.res.Ok? || l.res.Err?) && (l.res.Ok? ==> l.res == Ok(ts))
  {
    var found := Matching(t.objs, Data, ObjectLabel(id, SigRateSuffix));
    if h :| found == {h} {
      OrderOfOne(env, t.ticks, h);
      assert h in found;
    } else {
      OrderOfNone(env, t.ticks);
    }
  }

  // With no old record a save makes two calls, find and create.
  lemma FirstSaveOutcome(env: Env, t: TokenState, id: string, ts: seq<nat>)
    requires Enumerates(env) && NoCounter(t.objs, id)
    ensures var s := SaveData(env, t, ObjectLabel(id, SigRateSuffix), SigRateJson(ts));
            (s.res.Ok? <==> Served(env, t.ticks, 2)) && (s.res.Ok? ==> s.st.ticks == t.ticks + 2)
  {
    OrderOfNone(env, t.ticks);
  }

  // Over an old record it makes three: find, destroy, create.
  lemma SaveOutcome(env: Env, t: TokenState, id: string, ts: seq<nat>, ts': seq<nat>)
    requires Enumerates(env) && CounterIs(t.objs, id, ts) && ts != []
    ensures var s := SaveData(env, t, ObjectLabel(id, SigRateSuffix), SigRateJson(ts'));
            && (s.res.Ok? <==> Served(env, t.ticks, 3)) && (s.res.Ok? ==> s.st.ticks == t.ticks + 3)
            && (s.res.Err? ==> (NoCounter(s.st.objs, id) <==> Served(env, t.ticks, 2)))
            && (s.res.Err? && NoCounter(s.st.objs, id) ==> s.st.ticks == t.ticks + 3)
  {
    var name := ObjectLabel(id, SigRateSuffix);
    var h :| Matching(t.objs, Data, name) == {h};
    assert h in Matching(t.objs, Data, name);
    OrderOfOne(env, t.ticks, h);
    var f := Find(env, t, Data, name);
    if f.res.Ok? {
      ReplaceOne(env, f.st, h, DataObject(name, SigRateJson(ts')));
      if !env.fails(f.st.ticks) {
        assert Matching(f.st.objs - {h}, Data, name) == {};
      }
    }
  }

  lemma ReplaceOne(env: Env, t: TokenState, h: Handle, obj: Object)
    requires h in t.objs
    ensures Replace(env, t, [h], obj) ==
            var d := Destroy(env, t, h);
            if d.res.Err? then Ran(Err(d.res.error), d.st) else Create(env, d.st, obj)
  {
    var d := Destroy(env, t, h);
    assert [h][1..] == [] && DestroyAll(env, d.st, []) == Ran(Ok(()), d.st);
  }

  // A check passes exactly when the token serves all its calls and the list admits it.
  lemma CheckOkIff(env: Env, t: TokenState, id: string, policy: HsmPolicy, ts: seq<nat>)
    requires Valid(t) && Enumerates(env) && CounterIs(t.objs, id, ts) && policy.maxSignaturesPerHour.Some?
    ensures var c := CheckAndRecord(env, t, id, policy);
            var n := if ts == [] then 3 else 5;
            var read := t.ticks + if ts == [] then 1 else 2;
            var a := Admit(policy.maxSignaturesPerHour.value, ts, env.clock(read));
            && (c.res.Ok? <==> Served(env, t.ticks, n) && a.Ok?)
            && (c.res.Ok? ==> c.st.ticks == t.ticks + n)
  {
    LoadOutcome(env, t, id, ts);
    var l := LoadSigrate(env, t, id);
    if l.res.Ok? {
      var a := Admit(policy.maxSignaturesPerHour.value, ts, env.clock(l.st.ticks));
      if a.Ok? && ts == [] {
        FirstSaveOutcome(env, l.st, id, a.value);
      } else if a.Ok? {
        SaveOutcome(env, l.st, id, ts, a.value);
      }
    }
  }

  // A check loses the counter exactly when a ceiling is set and its save is cut.
  lemma CheckLosesIff(env: Env, t: TokenState, id: string, policy: HsmPolicy, ts: seq<nat>)
    requires Valid(t) && Enumerates(env) && CounterIs(t.objs, id, ts) && ts != []
    ensures var c := CheckAndRecord(env, t, id, policy);
            var max := policy.maxSignaturesPerHour;
            var lost := max.Some? && SaveCut(env, t.ticks, max.value, ts);
            && (NoCounter(c.st.objs, id) <==> lost)
            && (lost ==> c.res.Err? && c.st.ticks == t.ticks + 5)
  {
    if policy.maxSignaturesPerHour.Some? {
      LoadOutcome(env, t, id, ts);
      var l := LoadSigrate(env, t, id);
      if l.res.Ok? {
        var a := Admit(policy.maxSignaturesPerHour.value, ts, env.clock(l.st.ticks));
        if a.Ok? {
          SaveOutcome(env, l.st, id, ts, a.value);
          CheckAndRecordEffect(env, t, id, policy, ts);
        }
      }
    }
  }

  // The same from any token, however many records it holds and whatever they say: every one of
  // them is destroyed, and then the create is refused.
  predicate ReplaceCut(env: Env, t: TokenState, id: string, max: u32) {
    var l := LoadSigrate(env, t, id);
    var n := |Matching(t.objs, Data, ObjectLabel(id, SigRateSuffix))|;
    && l.res.Ok? && Admit(max, l.res.value, env.clock(l.st.ticks)).Ok?
    && Served(env, l.st.ticks, n + 1) && env.fails(l.st.ticks + n + 1)
  }

  lemma CheckCutIff(env: Env, t: TokenState, id: string, policy: HsmPolicy)
    requires Valid(t) && Enumerates(env) && !NoCounter(t.objs, id)
    ensures NoCounter(CheckAndRecord(env, t, id, policy).st.objs, id) <==>
              policy.maxSignaturesPerHour.Some? && ReplaceCut(env, t, id, policy.maxSignaturesPerHour.value)
  {
    if policy.maxSignaturesPerHour.Some? {
      var l := LoadSigrate(env, t, id);
      assert l.st.objs == t.objs && l.st.next == t.next;
      if l.res.Ok? {
        var a := Admit(policy.maxSignaturesPerHour.value, l.res.value, env.clock(l.st.ticks));
        if a.Ok? {
          SaveCutIff(env, l.st, id, a.value);
        }
      }
    }
  }

  lemma SaveCutIff(env: Env, t: TokenState, id: string, ts: seq<nat>)
    requires Valid(t) && Enumerates(env) && !NoCounter(t.objs, id)
    ensures var n := |Matching(t.objs, Data, ObjectLabel(id, SigRateSuffix))|;
            var s := SaveData(env, t, ObjectLabel(id, SigRateSuffix), SigRateJson(ts));
            NoCounter(s.st.objs, id) <==> Served(env, t.ticks, n + 1) && env.fails(t.ticks + n + 1)
  {
    var name := ObjectLabel(id, SigRateSuffix);
    var f := Find(env, t, Data, name);
    if f.res.Ok? {
      assert Lists(f.res.value, Matching(t.objs, Data, name));
      OverwriteCutIff(env, f.st, f.res.value, name, SigRateJson(ts));
    }
  }

  lemma OverwriteCutIff(env: Env, t: TokenState, hs: seq<Handle>, name: string, v: Value)
    requires Lists(hs, Matching(t.objs, Data, name)) && hs != []
    ensures var r := Replace(env, t, hs, DataObject(name, v));
            Matching(r.st.objs, Data, name) == {} <==> Served(env, t.ticks, |hs|) && env.fails(t.ticks + |hs|)
  {
    DestroyAllServed(env, t, hs);
    DestroyAllGone(env, t, hs, name);
    var d := DestroyAll(env, t, hs);
    if d.res.Ok? {
      CreatedIff(env, d.st, name, v);
    }
  }

  lemma CreatedIff(env: Env, t: TokenState, name: string, v: Value)
    requires Matching(t.objs, Data, name) == {}
    ensures var c := Create(env, t, DataObject(name, v));
            Matching(c.st.objs, Data, name) == {} <==> env.fails(t.ticks)
  {
    var c := Create(env, t, DataObject(name, v));
    assert c.res.Ok? ==> t.next in Matching(c.st.objs, Data, name);
  }

  lemma {:induction false} DestroyAllServed(env: Env, t: TokenState, hs: seq<Handle>)
    requires Distinct(hs) && forall h :: h in hs ==> h in t.objs
    ensures var d := DestroyAll(env, t, hs);
            (d.res.Ok? <==> Served(env, t.ticks, |hs|)) && (d.res.Ok? ==> d.st.ticks == t.ticks + |hs|)
    decreases |hs|
  {
    if hs != [] {
      var d := Destroy(env, t, hs[0]);
      if d.res.Ok? {
        DestroyAllServed(env, d.st, hs[1..]);
      }
    }
  }

  lemma DestroyAllGone(env: Env, t: TokenState, hs: seq<Handle>, name: string)
    requires Lists(hs, Matching(t.objs, Data, name))
    ensures var d := DestroyAll(env, t, hs);
            d.res.Ok? <==> Matching(d.st.objs, Data, name) == {}
  {
    assert Distinct(hs) && forall h :: h in hs ==> h in t.objs;
    var k := DestroyAllRemoves(env, t, hs);
    var d := DestroyAll(env, t, hs);
    assert hs[..|hs|] == hs;
    if d.res.Err? {
      assert hs[k] in hs && hs[k] in Matching(t.objs, Data, name);
      assert hs[k] !in hs[..k];
      assert hs[k] in Matching(d.st.objs, Data, name);
    }
  }

  // The states between checks in a row that all pass.
  ghost predicate AllPass(env: Env, us: seq<TokenState>, id: string, policy: HsmPolicy) {
    forall i :: 0 <= i < |us| - 1 ==> CheckPasses(env, us[i], us[i + 1], id, policy)
  }

  predicate CheckPasses(env: Env, t: TokenState, u: TokenState, id: string, policy: HsmPolicy) {
    var c := CheckAndRecord(env, t, id, policy);
    c.res.Ok? && c.st == u
  }

  function Times(now: nat, n: nat): (ts: seq<nat>)
    ensures |ts| == n && forall i :: 0 <= i < n ==> ts[i] == now
  {
    seq(n, _ => now)
  }

  lemma {:induction false} KeptTimes(now: nat, n: nat)
    ensures Kept(Times(now, n), now) == Times(now, n)
  {
    if n > 0 {
      KeptTimes(now, n - 1);
      assert Times(now, n)[1..] == Times(now, n - 1);
    }
  }

  // From no counter, at one and the same time, as many served checks pass as the ceiling allows.
  lemma {:induction false} ChecksPass(env: Env, t: TokenState, id: string, policy: HsmPolicy, n: nat, now: nat)
    returns (us: seq<TokenState>)
    requires Valid(t) && Enumerates(env) && NoCounter(t.objs, id)
    requires policy.maxSignaturesPerHour.Some? && n <= policy.maxSignaturesPerHour.value
    requires (forall k :: t.ticks <= k ==> env.clock(k) == now) && Served(env, t.ticks, 5 * n)
    ensures |us| == n + 1 && us[0] == t && AllPass(env, us, id, policy)
    ensures Filled(t, us[n], id, n, now)
    decreases n
  {
    if n == 0 {
      us := [t];
      assert Times(now, 0) == [];
    } else {
      us := ChecksPass(env, t, id, policy, n - 1, now);
      var u := NextCheckPasses(env, t, us[n - 1], id, policy, n - 1, now);
      ExtendPasses(env, us, u, id, policy);
      us := us + [u];
    }
  }

  lemma ExtendPasses(env: Env, us: seq<TokenState>, u: TokenState, id: string, policy: HsmPolicy)
    requires us != [] && AllPass(env, us, id, policy) && CheckPasses(env, us[|us| - 1], u, id, policy)
    ensures AllPass(env, us + [u], id, policy)
  {
  }

  // The state after n checks of one instant that passed.
  ghost predicate Filled(t: TokenState, u: TokenState, id: string, n: nat, now: nat) {
    && Valid(u) && CounterIs(u.objs, id, Times(now, n))
    && u.ticks == t.ticks + if n == 0 then 0 else 5 * n - 2
  }

  lemma NextCheckPasses(env: Env, t: TokenState, u: TokenState, id: string, policy: HsmPolicy, n: nat, now: nat)
    returns (v: TokenState)
    requires Enumerates(env) && Filled(t, u, id, n, now)
    requires policy.maxSignaturesPerHour.Some? && n < policy.maxSignaturesPerHour.value
    requires (forall k :: t.ticks <= k ==> env.clock(k) == now) && Served(env, t.ticks, 5 * n + 5)
    ensures CheckPasses(env, u, v, id, policy) && Filled(t, v, id, n + 1, now)
  {
    assert Served(env, u.ticks, if n == 0 then 3 else 5);
    OneCheckPasses(env, u, id, policy, n, now);
    v := CheckAndRecord(env, u, id, policy).st;
  }

  lemma OneCheckPasses(env: Env, t: TokenState, id: string, policy: HsmPolicy, n: nat, now: nat)
    requires Valid(t) && Enumerates(env) && CounterIs(t.objs, id, Times(now, n))
    requires policy.maxSignaturesPerHour.Some? && n < policy.maxSignaturesPerHour.value
    requires (forall k :: t.ticks <= k ==> env.clock(k) == now) && Served(env, t.ticks, if n == 0 then 3 else 5)
    ensures var c := CheckAndRecord(env, t, id, policy);
            && c.res.Ok? && Valid(c.st) && CounterIs(c.st.objs, id, Times(now, n + 1))
            && c.st.ticks == t.ticks + if n == 0 then 3 else 5
  {
    KeptTimes(now, n);
    assert Times(now, n) + [now] == Times(now, n + 1);
    CheckOkIff(env, t, id, policy, Times(now, n));
    CheckAndRecordEffect(env, t, id, policy, Times(now, n));
  }

  // For every ceiling and every list: once a save is cut, a whole ceiling's worth of further
  // checks at the same time is let through, and only the one after them is rejected.
  lemma LostCounterOvershoots(env: Env, t: TokenState, id: string, policy: HsmPolicy, ts: seq<nat>, now: nat)
    returns (us: seq<TokenState>)
    requires Valid(t) && Enumerates(env) && CounterIs(t.objs, id, ts) && ts != []
    requires policy.maxSignaturesPerHour.Some? && SaveCut(env, t.ticks, policy.maxSignaturesPerHour.value, ts)
    requires forall k :: t.ticks <= k ==> env.clock(k) == now
    requires forall k :: t.ticks + 4 < k ==> !env.fails(k)
    ensures var max := policy.maxSignaturesPerHour.value;
            var c := CheckAndRecord(env, t, id, policy);
            && c.res.Err? && |us| == max + 1 && us[0] == c.st && AllPass(env, us, id, policy)
            && CheckAndRecord(env, us[max], id, policy).res == Err(PolicyViolation)
  {
    var max := policy.maxSignaturesPerHour.value;
    CheckLosesIff(env, t, id, policy, ts);
    CheckAndRecordEffect(env, t, id, policy, ts);
    us := ChecksPass(env, CheckAndRecord(env, t, id, policy).st, id, policy, max, now);
    FullCounterRejects(env, us[max], id, policy, now);
  }

  lemma FullCounterRejects(env: Env, t: TokenState, id: string, policy: HsmPolicy, now: nat)
    requires Enumerates(env) && policy.maxSignaturesPerHour.Some?
    requires CounterIs(t.objs, id, Times(now, policy.maxSignaturesPerHour.value))
    requires (forall k :: t.ticks <= k ==> env.clock(k) == now) && Served(env, t.ticks, 2)
    ensures CheckAndRecord(env, t, id, policy).res == Err(PolicyViolation)
  {
    KeptTimes(now, policy.maxSignaturesPerHour.value);
    LoadOutcome(env, t, id, Times(now, policy.maxSignaturesPerHour.value));
  }

  // From an empty token: if the token refuses one call, the create of check k + 1, then k + max
  // checks of one instant pass under a ceiling of max.
  lemma OneRefusalOvershoots(env: Env, t: TokenState, id: string, policy: HsmPolicy, k: nat, now: nat)
    returns (us: seq<TokenState>, vs: seq<TokenState>)
    requires Valid(t) && Enumerates(env) && NoCounter(t.objs, id)
    requires policy.maxSignaturesPerHour.Some? && 0 < k < policy.maxSignaturesPerHour.value
    requires forall i :: t.ticks <= i ==> env.clock(i) == now
    requires forall i :: t.ticks <= i ==> (env.fails(i) <==> i == t.ticks + 5 * k + 2)
    ensures |us| == k + 1 && us[0] == t && AllPass(env, us, id, policy)
    ensures |vs| == policy.maxSignaturesPerHour.value + 1 && AllPass(env, vs, id, policy)
    ensures var c := CheckAndRecord(env, us[k], id, policy);
            c.res.Err? && vs[0] == c.st
  {
    us := ChecksPass(env, t, id, policy, k, now);
    KeptTimes(now, k);
    vs := LostCounterOvershoots(env, us[k], id, policy, Times(now, k), now);
  }
}
