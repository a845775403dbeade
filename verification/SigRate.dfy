// The trailing-hour signature counter: pruning, recording, and the check that persists it.
module SigRate {
  import opened Results
  import opened Policy
  import opened Labels
  import opened TokenModel
  import opened Store

  const HOUR: nat := 3600

  // `now.saturating_sub(3600)`
  function Cutoff(now: nat): nat {
    if now < HOUR then 0 else now - HOUR
  }

  function Retain(ts: seq<nat>, cutoff: nat): seq<nat> {
    if ts == [] then []
    else (if ts[0] >= cutoff then [ts[0]] else []) + Retain(ts[1..], cutoff)
  }

  function Kept(ts: seq<nat>, now: nat): seq<nat> {
    Retain(ts, Cutoff(now))
  }

  class SigRateCounter {
    var timestamps: seq<nat>

    constructor (ts: seq<nat>)
      ensures timestamps == ts
    {
      timestamps := ts;
    }

    // None where the conversion of the count to 32 bits panics.
    method PruneAndCount(now: nat) returns (count: Option<u32>)
      modifies this
      ensures timestamps == Kept(old(timestamps), now)
      ensures count == if |timestamps| < 0x1_0000_0000 then Some(|timestamps|) else None
    {
      var cutoff := Cutoff(now);
      var kept: seq<nat> := [];
      for k := 0 to |timestamps|
        invariant timestamps == old(timestamps)
        invariant kept + Retain(timestamps[k..], cutoff) == Retain(timestamps, cutoff)
      {
        assert timestamps[k..][1..] == timestamps[k + 1..];
        if timestamps[k] >= cutoff {
          kept := kept + [timestamps[k]];
        }
      }
      timestamps := kept;
      if |timestamps| >= 0x1_0000_0000 {
        return None;
      }
      return Some(|timestamps|);
    }

    method Record(now: nat)
      modifies this
      ensures timestamps == old(timestamps) + [now]
    {
      timestamps := timestamps + [now];
    }
  }

  // The list to persist when a call at `now` is admitted under the ceiling.
  function Admit(max: u32, ts: seq<nat>, now: nat): Result<seq<nat>> {
    var kept := Kept(ts, now);
    if |kept| >= 0x1_0000_0000 then Err(CounterPanic)
    else if |kept| >= max then Err(PolicyViolation)
    else Ok(kept + [now])
  }

  // The call after the counter is loaded.
  function RecordLoaded(env: Env, t: TokenState, id: string, max: u32, ts: seq<nat>): Ran<Option<nat>> {
    var now := env.clock(t.ticks);
    var a := Admit(max, ts, now);
    if a.Err? then Ran(Err(a.error), t)
    else
      var s := SaveData(env, t, ObjectLabel(id, SigRateSuffix), SigRateJson(a.value));
      Ran(if s.res.Ok? then Ok(Some(now)) else Err(s.res.error), s.st)
  }

  // Ok(Some(now)) where the call recorded now, Ok(None) where no ceiling is set.
  function CheckAndRecord(env: Env, t: TokenState, id: string, policy: HsmPolicy): Ran<Option<nat>> {
    match policy.maxSignaturesPerHour
    case None => Ran(Ok(None), t)
    case Some(max) =>
      var l := LoadSigrate(env, t, id);
      if l.res.Err? then Ran(Err(l.res.error), l.st) else RecordLoaded(env, l.st, id, max, l.res.value)
  }

  method CheckAndRecordSigrate(session: Token, id: string, policy: HsmPolicy) returns (r: Result<Option<nat>>)
    modifies session
    ensures Ran(r, session.State()) == CheckAndRecord(session.env, old(session.State()), id, policy)
  {
    if policy.maxSignaturesPerHour.None? {
      return Ok(None);
    }
    var max := policy.maxSignaturesPerHour.value;
    var loaded := LoadSigrateFrom(session, id);
    if loaded.Err? {
      return Err(loaded.error);
    }
    var counter := new SigRateCounter(loaded.value);
    var now := session.env.clock(session.ticks);
    var count := counter.PruneAndCount(now);
    if count.None? {
      return Err(CounterPanic);
    }
    if count.value >= max {
      return Err(PolicyViolation);
    }
    counter.Record(now);
    var saved := SaveValue(session, ObjectLabel(id, SigRateSuffix), SigRateJson(counter.timestamps));
    if saved.Err? {
      return Err(saved.error);
    }
    return Ok(Some(now));
  }

  // ------------------------------------------------------------------------------------------
  // The pruned list against the full history
  // ------------------------------------------------------------------------------------------

  ghost predicate Sorted(ts: seq<nat>) {
    forall i, j :: 0 <= i < j < |ts| ==> ts[i] <= ts[j]
  }

  // How many entries lie in [lo, hi].
  function CountIn(ts: seq<nat>, lo: nat, hi: nat): (n: nat)
    ensures n <= |ts|
  {
    if ts == [] then 0 else (if lo <= ts[0] <= hi then 1 else 0) + CountIn(ts[1..], lo, hi)
  }

  // How many entries are at most an hour old.
  function InLastHour(ts: seq<nat>, now: nat): nat {
    CountIn(ts, if now < 3600 then 0 else now - 3600, now)
  }

  // `ts` is what pruning has left of `history` by the time `now`: a suffix, and whatever is gone
  // is more than an hour old.
  ghost predicate PrunedFrom(ts: seq<nat>, history: seq<nat>, now: nat) {
    && Sorted(history)
    && (forall i :: 0 <= i < |history| ==> history[i] <= now)
    && |ts| <= |history| && ts == history[|history| - |ts|..]
    && (forall i :: 0 <= i < |history| - |ts| ==> history[i] + HOUR < now)
  }

  lemma {:induction false} RetainSorted(ts: seq<nat>, cutoff: nat) returns (k: nat)
    requires Sorted(ts)
    ensures k <= |ts| && Retain(ts, cutoff) == ts[k..]
    ensures forall i :: 0 <= i < k ==> ts[i] < cutoff
    ensures forall i :: k <= i < |ts| ==> ts[i] >= cutoff
  {
    if ts == [] {
      k := 0;
    } else {
      var j := RetainSorted(ts[1..], cutoff);
      k := if ts[0] >= cutoff then 0 else j + 1;
      if k == 0 && |ts| > 1 {
        assert ts[1..][0] >= ts[0];
      }
      assert ts == [ts[0]] + ts[1..];
    }
  }

  lemma {:induction false} CountSplit(a: seq<nat>, b: seq<nat>, lo: nat, hi: nat)
    ensures CountIn(a + b, lo, hi) == CountIn(a, lo, hi) + CountIn(b, lo, hi)
  {
    if a == [] {
      assert a + b == b;
    } else {
      assert (a + b)[1..] == a[1..] + b;
      CountSplit(a[1..], b, lo, hi);
    }
  }

  lemma {:induction false} CountAll(ts: seq<nat>, lo: nat, hi: nat)
    ensures (forall i :: 0 <= i < |ts| ==> lo <= ts[i] <= hi) ==> CountIn(ts, lo, hi) == |ts|
    ensures (forall i :: 0 <= i < |ts| ==> ts[i] < lo || hi < ts[i]) ==> CountIn(ts, lo, hi) == 0
  {
    if ts != [] {
      CountAll(ts[1..], lo, hi);
      assert forall i :: 0 <= i < |ts| - 1 ==> ts[1..][i] == ts[i + 1];
    }
  }

  // At every check the pruned list has one entry per timestamp ever recorded in the trailing
  // hour, both ends included, and each prune drops exactly a prefix.
  lemma PrunedCountsHistory(ts: seq<nat>, history: seq<nat>, now: nat)
    requires PrunedFrom(ts, history, now)
    ensures |Kept(ts, now)| == InLastHour(history, now)
    ensures PrunedFrom(Kept(ts, now), history, now)
    ensures |Kept(ts, now)| <= |ts| && Kept(ts, now) == ts[|ts| - |Kept(ts, now)|..]
  {
    var k := KeptIsSuffix(ts, history, now);
    CountSuffix(history, k, Cutoff(now), now);
  }

  lemma KeptIsSuffix(ts: seq<nat>, history: seq<nat>, now: nat) returns (k: nat)
    requires PrunedFrom(ts, history, now)
    ensures |history| - |ts| <= k <= |history| && Kept(ts, now) == history[k..]
    ensures forall i :: 0 <= i < k ==> history[i] < Cutoff(now)
    ensures forall i :: k <= i < |history| ==> Cutoff(now) <= history[i] <= now
  {
    var gone := |history| - |ts|;
    var j := RetainSorted(ts, Cutoff(now));
    k := gone + j;
    assert Kept(ts, now) == ts[j..] == history[k..];
    assert forall i :: 0 <= i < |ts| ==> history[gone + i] == ts[i];
    forall i | 0 <= i < k
      ensures history[i] < Cutoff(now)
    {
      if i >= gone {
        assert history[gone + (i - gone)] == ts[i - gone];
      }
    }
    forall i | k <= i < |history|
      ensures Cutoff(now) <= history[i]
    {
      assert history[gone + (i - gone)] == ts[i - gone];
    }
  }

  lemma CountSuffix(ts: seq<nat>, k: nat, lo: nat, hi: nat)
    requires k <= |ts|
    requires forall i :: 0 <= i < k ==> ts[i] < lo
    requires forall i :: k <= i < |ts| ==> lo <= ts[i] <= hi
    ensures CountIn(ts, lo, hi) == |ts| - k
  {
    assert ts == ts[..k] + ts[k..];
    CountSplit(ts[..k], ts[k..], lo, hi);
    CountAll(ts[..k], lo, hi);
    CountAll(ts[k..], lo, hi);
  }

  lemma {:induction false} RetainConcat(a: seq<nat>, b: seq<nat>, cutoff: nat)
    ensures Retain(a + b, cutoff) == Retain(a, cutoff) + Retain(b, cutoff)
  {
    if a == [] {
      assert a + b == b;
    } else {
      var x, rest := a[0], a[1..];
      RetainConcat(rest, b, cutoff);
      assert a == [x] + rest && a + b == [x] + (rest + b);
      RetainCons(x, rest, cutoff);
      RetainCons(x, rest + b, cutoff);
      Associative(RetainOne(x, cutoff), Retain(rest, cutoff), Retain(b, cutoff));
    }
  }

  function RetainOne(x: nat, cutoff: nat): seq<nat> {
    if x >= cutoff then [x] else []
  }

  lemma RetainCons(x: nat, rest: seq<nat>, cutoff: nat)
    ensures Retain([x] + rest, cutoff) == RetainOne(x, cutoff) + Retain(rest, cutoff)
  {
    assert ([x] + rest)[1..] == rest;
  }

  lemma Associative(a: seq<nat>, b: seq<nat>, c: seq<nat>)
    ensures a + (b + c) == a + b + c
  {
  }

  // Entries in front of a list only make admission harder, and what they leave stays in front.
  lemma AdmitBehind(old': seq<nat>, tail: seq<nat>, now: nat, max: u32)
    requires Admit(max, old' + tail, now).Ok?
    ensures Admit(max, tail, now).Ok?
    ensures Admit(max, old' + tail, now).value == Kept(old', now) + Admit(max, tail, now).value
  {
    RetainConcat(old', tail, Cutoff(now));
    assert Kept(old', now) + Kept(tail, now) + [now] == Kept(old', now) + (Kept(tail, now) + [now]);
  }

  // Any m + 1 consecutive entries span more than an hour.
  ghost predicate Spaced(ts: seq<nat>, m: nat) {
    forall i {:trigger ts[i]} :: m <= i < |ts| ==> ts[i - m] + HOUR < ts[i]
  }

  lemma {:induction false} SpacedWindow(ts: seq<nat>, m: nat, a: nat)
    requires Sorted(ts) && Spaced(ts, m)
    ensures CountIn(ts, a, a + HOUR) <= m
  {
    if |ts| > m {
      if ts[0] < a {
        SpacedWindow(ts[1..], m, a);
      } else {
        assert ts[m - m] + HOUR < ts[m];
        assert ts == ts[..m] + ts[m..];
        CountSplit(ts[..m], ts[m..], a, a + HOUR);
        CountAll(ts[m..], a, a + HOUR);
      }
    }
  }

  // What is admitted is what pruning leaves of the longer history.
  lemma AdmitKeepsPruned(ts: seq<nat>, history: seq<nat>, now: nat, max: u32)
    requires PrunedFrom(ts, history, now) && Admit(max, ts, now).Ok?
    ensures PrunedFrom(Admit(max, ts, now).value, history + [now], now)
  {
    var k := KeptIsSuffix(ts, history, now);
    SuffixPruned(history, k, now);
  }

  lemma SuffixPruned(history: seq<nat>, k: nat, now: nat)
    requires Sorted(history) && k <= |history|
    requires forall i :: 0 <= i < |history| ==> history[i] <= now
    requires forall i :: 0 <= i < k ==> history[i] < Cutoff(now)
    ensures PrunedFrom(history[k..] + [now], history + [now], now)
  {
    assert (history + [now])[k..] == history[k..] + [now];
  }

  // Admitting a call keeps the spacing, for any bound the ceiling does not exceed.
  lemma AdmitKeepsSpacing(ts: seq<nat>, history: seq<nat>, now: nat, max: u32, m: nat)
    requires PrunedFrom(ts, history, now) && Spaced(history, m)
    requires Admit(max, ts, now).Ok? && max <= m
    ensures Spaced(history + [now], m)
    ensures PrunedFrom(Admit(max, ts, now).value, history + [now], now)
  {
    AdmitKeepsPruned(ts, history, now, max);
    var k := KeptIsSuffix(ts, history, now);
    SuffixSpaced(history, k, now, m);
  }

  lemma SuffixSpaced(history: seq<nat>, k: nat, now: nat, m: nat)
    requires Spaced(history, m) && k <= |history| < k + m
    requires forall i :: 0 <= i < k ==> history[i] < Cutoff(now)
    ensures Spaced(history + [now], m)
  {
    if |history| >= m {
      assert history[|history| - m] + HOUR < now;
    }
  }

  // ------------------------------------------------------------------------------------------
  // The persisted counter
  // ------------------------------------------------------------------------------------------

  // The token holds at most one counter under this label, and it reads as `ts`; an empty list is
  // never stored.
  ghost predicate CounterIs(objs: map<Handle, Object>, id: string, ts: seq<nat>) {
    var found := Matching(objs, Data, ObjectLabel(id, SigRateSuffix));
    || (found == {} && ts == [])
    || (ts != [] && exists h :: found == {h} && objs[h].value == Some(SigRateJson(ts)))
  }

  predicate NoCounter(objs: map<Handle, Object>, id: string) {
    Matching(objs, Data, ObjectLabel(id, SigRateSuffix)) == {}
  }

  lemma LoadCounter(env: Env, t: TokenState, id: string, ts: seq<nat>)
    requires Enumerates(env) && CounterIs(t.objs, id, ts)
    ensures var l := LoadSigrate(env, t, id);
            && l.st.objs == t.objs && l.st.next == t.next && l.st.log == t.log && l.st.ticks >= t.ticks
            && (l.res == Ok(ts) || (l.res == Err(Refused) && t.ticks < l.st.ticks && env.fails(l.st.ticks - 1)))
  {
    var found := Matching(t.objs, Data, ObjectLabel(id, SigRateSuffix));
    if h :| found == {h} && t.objs[h].value == Some(SigRateJson(ts)) {
      OrderOfOne(env, t.ticks, h);
      assert h in found;
    } else {
      OrderOfNone(env, t.ticks);
    }
  }

  // From any token, whatever records it holds: the check touches no other object.
  lemma CheckAndRecordFrame(env: Env, t: TokenState, id: string, policy: HsmPolicy)
    requires Valid(t) && Enumerates(env)
    ensures var c := CheckAndRecord(env, t, id, policy);
            && Valid(c.st) && c.st.log == t.log && c.st.ticks >= t.ticks && c.st.next >= t.next
            && Others(c.st.objs, ObjectLabel(id, SigRateSuffix)) == Others(t.objs, ObjectLabel(id, SigRateSuffix))
  {
    if policy.maxSignaturesPerHour.Some? {
      var l := LoadSigrate(env, t, id);
      if l.res.Ok? {
        var a := Admit(policy.maxSignaturesPerHour.value, l.res.value, env.clock(l.st.ticks));
        if a.Ok? {
          SaveEffect(env, l.st, ObjectLabel(id, SigRateSuffix), SigRateJson(a.value));
        }
      }
    }
  }

  // What a passing check has done, from any token: it loaded a list, admitted the time it read,
  // and left exactly one record with the admitted list.
  lemma CheckRecords(env: Env, t: TokenState, id: string, policy: HsmPolicy)
    requires Valid(t) && Enumerates(env)
    ensures var c := CheckAndRecord(env, t, id, policy);
            c.res.Ok? ==>
              if policy.maxSignaturesPerHour.None? then c == Ran(Ok(None), t) else CheckStored(env, t, id, policy)
  {
    if policy.maxSignaturesPerHour.Some? {
      var l := LoadSigrate(env, t, id);
      if l.res.Ok? {
        var a := Admit(policy.maxSignaturesPerHour.value, l.res.value, env.clock(l.st.ticks));
        if a.Ok? {
          SaveEffect(env, l.st, ObjectLabel(id, SigRateSuffix), SigRateJson(a.value));
        }
      }
    }
  }

  ghost predicate CheckStored(env: Env, t: TokenState, id: string, policy: HsmPolicy)
    requires policy.maxSignaturesPerHour.Some?
  {
    var l, c := LoadSigrate(env, t, id), CheckAndRecord(env, t, id, policy);
    && l.res.Ok? && t.ticks <= l.st.ticks <= c.st.ticks && c.res == Ok(Some(env.clock(l.st.ticks)))
    && (var a := Admit(policy.maxSignaturesPerHour.value, l.res.value, env.clock(l.st.ticks));
        a.Ok? && CounterIs(c.st.objs, id, a.value))
  }

  // One check of the rate: what it admits, what it persists, and the one way it loses the
  // counter, which is a create refused after the old record was destroyed.
  lemma CheckAndRecordEffect(env: Env, t: TokenState, id: string, policy: HsmPolicy, ts: seq<nat>)
    requires Valid(t) && Enumerates(env) && CounterIs(t.objs, id, ts)
    ensures var c := CheckAndRecord(env, t, id, policy);
            && Valid(c.st) && c.st.log == t.log && c.st.next >= t.next && c.st.ticks >= t.ticks
            && Others(c.st.objs, ObjectLabel(id, SigRateSuffix)) == Others(t.objs, ObjectLabel(id, SigRateSuffix))
    ensures var c := CheckAndRecord(env, t, id, policy);
            c.res.Ok? && policy.maxSignaturesPerHour.Some? ==>
              var k := LoadSigrate(env, t, id).st.ticks;
              var a := Admit(policy.maxSignaturesPerHour.value, ts, env.clock(k));
              && t.ticks <= k <= c.st.ticks && c.res.value == Some(env.clock(k))
              && a.Ok? && CounterIs(c.st.objs, id, a.value)
    ensures var c := CheckAndRecord(env, t, id, policy);
            c.res.Ok? && policy.maxSignaturesPerHour.None? ==> c == Ran(Ok(None), t)
    ensures var c := CheckAndRecord(env, t, id, policy);
            c.res.Err? ==>
              || CounterIs(c.st.objs, id, ts)
              || (NoCounter(c.st.objs, id) && t.ticks < c.st.ticks && env.fails(c.st.ticks - 1))
    ensures CheckAndRecord(env, t, id, policy).res == Err(CounterPanic) ==> |ts| >= 0x1_0000_0000
  {
    CheckAndRecordFrame(env, t, id, policy);
    CheckRecords(env, t, id, policy);
    LoadCounter(env, t, id, ts);
    CheckFails(env, t, id, policy, ts);
    CheckPanics(env, t, id, policy);
  }

  lemma CheckFails(env: Env, t: TokenState, id: string, policy: HsmPolicy, ts: seq<nat>)
    requires Valid(t) && Enumerates(env) && CounterIs(t.objs, id, ts)
    ensures var c := CheckAndRecord(env, t, id, policy);
            c.res.Err? ==>
              || CounterIs(c.st.objs, id, ts)
              || (NoCounter(c.st.objs, id) && t.ticks < c.st.ticks && env.fails(c.st.ticks - 1))
  {
    if policy.maxSignaturesPerHour.Some? {
      LoadCounter(env, t, id, ts);
      var l := LoadSigrate(env, t, id);
      if l.res.Ok? {
        var a := Admit(policy.maxSignaturesPerHour.value, ts, env.clock(l.st.ticks));
        if a.Ok? {
          SaveCounter(env, l.st, id, ts, a.value);
        }
      }
    }
  }

  // The conversion of the count panics only on a loaded list of 2^32 entries.
  lemma CheckPanics(env: Env, t: TokenState, id: string, policy: HsmPolicy)
    requires Enumerates(env)
    ensures CheckAndRecord(env, t, id, policy).res == Err(CounterPanic) ==>
              LoadSigrate(env, t, id).res.Ok? && |LoadSigrate(env, t, id).res.value| >= 0x1_0000_0000
  {
    if policy.maxSignaturesPerHour.Some? {
      var l := LoadSigrate(env, t, id);
      if l.res.Ok? {
        RetainShrinks(l.res.value, Cutoff(env.clock(l.st.ticks)));
        var a := Admit(policy.maxSignaturesPerHour.value, l.res.value, env.clock(l.st.ticks));
        if a.Ok? {
          SaveRefused(env, l.st, ObjectLabel(id, SigRateSuffix), SigRateJson(a.value));
        }
      }
    }
  }

  // Every list stored under the label has at most n entries.
  ghost predicate ListsAtMost(objs: map<Handle, Object>, id: string, n: nat) {
    forall h, ts :: h in Matching(objs, Data, ObjectLabel(id, SigRateSuffix)) && objs[h].value == Some(SigRateJson(ts))
      ==> |ts| <= n
  }

  lemma LoadedAtMost(env: Env, t: TokenState, id: string, n: nat)
    requires Enumerates(env) && ListsAtMost(t.objs, id, n)
    ensures LoadSigrate(env, t, id).res.Ok? ==> |LoadSigrate(env, t, id).res.value| <= n
  {
    LoadSees(env, t, ObjectLabel(id, SigRateSuffix));
  }

  // No check stores a longer list than the ceiling, and what it leaves in place is unchanged.
  lemma CheckKeepsLists(env: Env, t: TokenState, id: string, policy: HsmPolicy, n: nat)
    requires Valid(t) && Enumerates(env) && ListsAtMost(t.objs, id, n)
    requires policy.maxSignaturesPerHour.Some? ==> policy.maxSignaturesPerHour.value <= n
    ensures ListsAtMost(CheckAndRecord(env, t, id, policy).st.objs, id, n)
  {
    if policy.maxSignaturesPerHour.Some? {
      var l := LoadSigrate(env, t, id);
      if l.res.Ok? {
        var a := Admit(policy.maxSignaturesPerHour.value, l.res.value, env.clock(l.st.ticks));
        if a.Ok? {
          SaveKeepsLists(env, l.st, id, a.value, n);
        }
      }
    }
  }

  lemma SaveKeepsLists(env: Env, t: TokenState, id: string, ts: seq<nat>, n: nat)
    requires Valid(t) && Enumerates(env) && ListsAtMost(t.objs, id, n) && |ts| <= n
    ensures ListsAtMost(SaveData(env, t, ObjectLabel(id, SigRateSuffix), SigRateJson(ts)).st.objs, id, n)
  {
    var name := ObjectLabel(id, SigRateSuffix);
    SaveEffect(env, t, name, SigRateJson(ts));
    SaveKeepsObjects(env, t, name, SigRateJson(ts));
  }

  lemma {:induction false} RetainShrinks(ts: seq<nat>, cutoff: nat)
    ensures |Retain(ts, cutoff)| <= |ts|
  {
    if ts != [] {
      RetainShrinks(ts[1..], cutoff);
    }
  }

  lemma SaveCounter(env: Env, t: TokenState, id: string, ts: seq<nat>, ts': seq<nat>)
    requires Valid(t) && Enumerates(env) && CounterIs(t.objs, id, ts) && ts' != []
    ensures var s := SaveData(env, t, ObjectLabel(id, SigRateSuffix), SigRateJson(ts'));
            && Replaced(env, t, ObjectLabel(id, SigRateSuffix), SigRateJson(ts'), s)
            && (s.res.Ok? ==> CounterIs(s.st.objs, id, ts'))
            && (s.res.Err? ==> CounterIs(s.st.objs, id, ts) || NoCounter(s.st.objs, id))
  {
    var name, v := ObjectLabel(id, SigRateSuffix), SigRateJson(ts');
    var s := SaveData(env, t, name, v);
    SaveEffect(env, t, name, v);
    if s.res.Err? {
      SaveKeepsObjects(env, t, name, v);
      var before, after := Matching(t.objs, Data, name), Matching(s.st.objs, Data, name);
      if after != before {
        assert |before| <= 1;
        ProperSubsetOfOne(after, before);
      }
    }
  }
}
