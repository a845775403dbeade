// How many calls the ceiling lets through, over whole runs of any number of clones.
module RateBound {
  import opened Results
  import opened Policy
  import opened TokenModel
  import opened SigRate
  import opened Backend
  import opened Clones
  import opened RateCalls

  // The timestamps calls returned Ok with.
  function Recorded(events: seq<Event>): seq<nat>
    decreases |events|
  {
    if events == [] then []
    else
      var e := events[|events| - 1];
      Recorded(events[..|events| - 1]) + if e.recorded.Some? then [e.recorded.value] else []
  }

  // The same timestamps, cut wherever a call lost the counter.
  function Epochs(w: World, t: TokenState, jobs: seq<Job>): (es: seq<seq<nat>>)
    ensures es != []
    decreases |jobs|
  {
    if jobs == [] then [[]]
    else
      var es := Epochs(w, t, jobs[..|jobs| - 1]);
      var before := Serial(w, t, jobs[..|jobs| - 1]).token;
      var o := Atomic(w, jobs[|jobs| - 1], before);
      NextEpochs(w, es, before, o)
  }

  function NextEpochs(w: World, es: seq<seq<nat>>, before: TokenState, o: Outcome): (es': seq<seq<nat>>)
    requires es != []
    ensures es' != []
  {
    if o.recorded.Some? then Longer(es, o.recorded.value)
    else if Lost(w, before, o) then es + [[]]
    else es
  }

  // The call found a counter, recorded nothing, and left none.
  predicate Lost(w: World, before: TokenState, o: Outcome) {
    o.recorded.None? && NoCounter(o.st.objs, w.cfg.id) && !NoCounter(before.objs, w.cfg.id)
  }

  // How often a call destroyed the counter and was refused the new one.
  function Losses(w: World, t: TokenState, jobs: seq<Job>): nat
    decreases |jobs|
  {
    if jobs == [] then 0
    else
      var rest := jobs[..|jobs| - 1];
      var before := Serial(w, t, rest).token;
      var o := Atomic(w, jobs[|jobs| - 1], before);
      Losses(w, t, rest) + if Lost(w, before, o) then 1 else 0
  }

  lemma {:induction false} EpochCount(w: World, t: TokenState, jobs: seq<Job>)
    ensures |Epochs(w, t, jobs)| == 1 + Losses(w, t, jobs)
    decreases |jobs|
  {
    if jobs != [] {
      EpochCount(w, t, jobs[..|jobs| - 1]);
    }
  }

  function Flatten(es: seq<seq<nat>>): seq<nat>
    decreases |es|
  {
    if es == [] then [] else Flatten(es[..|es| - 1]) + es[|es| - 1]
  }

  ghost predicate Ceilings(jobs: seq<Job>, m: nat) {
    forall j :: 0 <= j < |jobs| ==> JobCeiling(jobs[j], m)
  }

  // Under any clock at all, running backwards included, and from any token: no stored list ever
  // grows beyond the largest ceiling in force and the lists the run began with.
  lemma {:induction false} CounterNeverOutgrows(w: World, t: TokenState, jobs: seq<Job>, m: nat, n: nat)
    requires Usable(w, t, m) && Ceilings(jobs, m) && ListsAtMost(t.objs, w.cfg.id, n) && m <= n
    ensures Usable(w, Serial(w, t, jobs).token, m) && ListsAtMost(Serial(w, t, jobs).token.objs, w.cfg.id, n)
    decreases |jobs|
  {
    if jobs != [] {
      var rest, job := jobs[..|jobs| - 1], jobs[|jobs| - 1];
      CounterNeverOutgrows(w, t, rest, m, n);
      AnyStep(w, Serial(w, t, rest).token, job, m);
      JobKeepsLists(w, Serial(w, t, rest).token, job, m, n);
    }
  }

  // From one readable list: it is still there, or what replaced it is no longer than the largest
  // ceiling in force.
  lemma {:induction false} ListOrCeiling(w: World, t: TokenState, jobs: seq<Job>, m: nat, ts0: seq<nat>)
    returns (ts: seq<nat>)
    requires Usable(w, t, m) && CounterIs(t.objs, w.cfg.id, ts0) && Ceilings(jobs, m)
    ensures var h := Serial(w, t, jobs);
            Usable(w, h.token, m) && CounterIs(h.token.objs, w.cfg.id, ts) && (ts == ts0 || |ts| <= m)
    decreases |jobs|
  {
    if jobs == [] {
      ts := ts0;
    } else {
      var rest, job := jobs[..|jobs| - 1], jobs[|jobs| - 1];
      var old' := ListOrCeiling(w, t, rest, m, ts0);
      var before := Serial(w, t, rest).token;
      JobStep(w, before, old', job, m);
      ts := NextList(w, before, old', Atomic(w, job, before), m);
    }
  }

  // The list a call leaves on the token: what it admitted, the old one, or none.
  lemma NextList(w: World, t: TokenState, ts: seq<nat>, o: Outcome, m: nat) returns (ts': seq<nat>)
    requires RateStep(w, t, ts, o, m)
    ensures CounterIs(o.st.objs, w.cfg.id, ts') && (ts' == ts || |ts'| <= m)
  {
    if o.recorded.Some? {
      var max := CeilingOf(w, t, ts, o, m);
      ts' := Admit(max, ts, o.recorded.value).value;
    } else {
      ts' := if CounterIs(o.st.objs, w.cfg.id, ts) then ts else [];
    }
  }

  // So the conversion of the count to 32 bits cannot panic, at whatever point of the run and
  // under whatever policy the rate is checked, unless some list had 2^32 entries to begin with.
  lemma CounterPanicUnreachable(w: World, t: TokenState, jobs: seq<Job>, m: u32, u: TokenState, policy: HsmPolicy)
    requires Usable(w, t, m) && Ceilings(jobs, m) && ListsAtMost(t.objs, w.cfg.id, 0xFFFF_FFFF)
    requires Grows(Serial(w, t, jobs).token, u)
    ensures CheckAndRecord(w.env, u, w.cfg.id, policy).res != Err(CounterPanic)
  {
    CounterNeverOutgrows(w, t, jobs, m, 0xFFFF_FFFF);
    GrowsUntouched(w, Serial(w, t, jobs).token, u, m);
    SameRecordsSameCounter(Serial(w, t, jobs).token.objs, u.objs, w.cfg.id);
    LoadedAtMost(w.env, u, w.cfg.id, 0xFFFF_FFFF);
    CheckPanics(w.env, u, w.cfg.id, policy);
  }

  // And no call of the run returns with it.
  lemma {:induction false} NoPanicReturned(w: World, t: TokenState, jobs: seq<Job>, m: u32, n: nat)
    requires Usable(w, t, m) && Ceilings(jobs, m) && ListsAtMost(t.objs, w.cfg.id, 0xFFFF_FFFF)
    requires n < |Serial(w, t, jobs).events|
    ensures Serial(w, t, jobs).events[n].res != Err(CounterPanic)
    decreases |jobs|
  {
    var rest, job := jobs[..|jobs| - 1], jobs[|jobs| - 1];
    if n < |Serial(w, t, rest).events| {
      NoPanicReturned(w, t, rest, m, n);
    } else {
      CounterNeverOutgrows(w, t, rest, m, 0xFFFF_FFFF);
      JobKeepsLists(w, Serial(w, t, rest).token, job, m, 0xFFFF_FFFF);
    }
  }

  // Over every interleaving of clones, no call that has returned returned with that panic.
  lemma ClonesNeverPanic(w: World, t: TokenState, actions: seq<Action>, m: u32, n: nat)
    requires Usable(w, t, m) && Ceilings(Run(w, Start(t), actions).order, m)
    requires ListsAtMost(t.objs, w.cfg.id, 0xFFFF_FFFF) && n < |Run(w, Start(t), actions).events|
    ensures Run(w, Start(t), actions).events[n].res != Err(CounterPanic)
  {
    EventsAreSerial(w, t, actions);
    NoPanicReturned(w, t, Run(w, Start(t), actions).order, m, n);
  }

  // ------------------------------------------------------------------------------------------
  // Runs cut into the lives of the counter
  // ------------------------------------------------------------------------------------------

  // With a clock that does not run backwards: nothing has been recorded yet, or the stored list
  // is something old and then `tail`, what pruning left of the last epoch; and every epoch keeps
  // its distance.
  ghost predicate RunHistory(w: World, m: nat, h: History, es: seq<seq<nat>>, tail: seq<nat>) {
    && Usable(w, h.token, m)
    && InEpochs(es, Recorded(h.events), tail, m, w.env.clock(h.token.ticks))
    && (Unrecorded(h, tail) || exists old' :: CounterIs(h.token.objs, w.cfg.id, old' + tail))
  }

  ghost predicate Unrecorded(h: History, tail: seq<nat>) {
    Recorded(h.events) == [] && tail == []
  }

  ghost predicate InEpochs(es: seq<seq<nat>>, history: seq<nat>, tail: seq<nat>, m: nat, now: nat) {
    && es != [] && Flatten(es) == history && PrunedFrom(tail, es[|es| - 1], now) && AllSteady(es, m)
  }

  ghost predicate AllSteady(es: seq<seq<nat>>, m: nat) {
    forall i :: 0 <= i < |es| ==> Steady(es[i], m)
  }

  ghost predicate Steady(epoch: seq<nat>, m: nat) {
    Sorted(epoch) && Spaced(epoch, m)
  }

  lemma {:induction false} SerialRunHistory(w: World, t: TokenState, jobs: seq<Job>, m: nat) returns (tail: seq<nat>)
    requires ClockMonotone(w.env) && Usable(w, t, m) && Ceilings(jobs, m)
    ensures RunHistory(w, m, Serial(w, t, jobs), Epochs(w, t, jobs), tail)
    decreases |jobs|
  {
    if jobs == [] {
      tail := [];
      assert Flatten([[]]) == [];
    } else {
      var rest, job := jobs[..|jobs| - 1], jobs[|jobs| - 1];
      tail := SerialRunHistory(w, t, rest, m);
      tail := ExtendRun(w, m, Serial(w, t, rest), Epochs(w, t, rest), tail, job);
    }
  }

  lemma ExtendRun(w: World, m: nat, h: History, es: seq<seq<nat>>, tail: seq<nat>, job: Job) returns (tail': seq<nat>)
    requires ClockMonotone(w.env) && RunHistory(w, m, h, es, tail) && JobCeiling(job, m)
    ensures var o := Atomic(w, job, h.token);
            RunHistory(w, m, Append(h, job, o), NextEpochs(w, es, h.token, o), tail')
  {
    var o := Atomic(w, job, h.token);
    AnyStep(w, h.token, job, m);
    RecordedAppend(h, job, o);
    if o.recorded.Some? {
      tail' := ExtendRecorded(w, m, h, es, tail, job, o);
    } else if Unrecorded(h, tail) {
      tail' := [];
      EpochsUnrecorded(w, m, h, es, o);
    } else {
      tail' := ExtendUnrecorded(w, m, h, es, tail, job, o);
    }
  }

  // The list the call was admitted on ends in `tail`: the first call to be recorded finds any
  // list at all, and any list ends in nothing.
  lemma AdmittedOn(w: World, m: nat, h: History, tail: seq<nat>, job: Job, o: Outcome) returns (old': seq<nat>)
    requires Usable(w, h.token, m) && JobCeiling(job, m) && o == Atomic(w, job, h.token) && o.recorded.Some?
    requires Unrecorded(h, tail) || exists old'' :: CounterIs(h.token.objs, w.cfg.id, old'' + tail)
    ensures Recording(w, h.token, old' + tail, o, m)
  {
    if Unrecorded(h, tail) {
      AnyStep(w, h.token, job, m);
      old' :| Recording(w, h.token, old', o, m);
      assert old' + tail == old';
    } else {
      old' :| CounterIs(h.token.objs, w.cfg.id, old' + tail);
      JobStep(w, h.token, old' + tail, job, m);
    }
  }

  lemma ExtendRecorded(w: World, m: nat, h: History, es: seq<seq<nat>>, tail: seq<nat>, job: Job, o: Outcome)
    returns (tail': seq<nat>)
    requires ClockMonotone(w.env) && RunHistory(w, m, h, es, tail) && JobCeiling(job, m)
    requires o == Atomic(w, job, h.token) && o.recorded.Some?
    ensures InEpochs(Longer(es, o.recorded.value), Recorded(h.events) + [o.recorded.value], tail', m,
                     w.env.clock(o.st.ticks))
    ensures exists old' :: CounterIs(o.st.objs, w.cfg.id, old' + tail')
  {
    var x := o.recorded.value;
    var old' := AdmittedOn(w, m, h, tail, job, o);
    var max := CeilingOf(w, h.token, old' + tail, o, m);
    AdmitBehind(old', tail, x, max);
    tail' := Admit(max, tail, x).value;
    EpochGrows(es, Recorded(h.events), tail, m, x, max, w.env.clock(h.token.ticks), w.env.clock(o.st.ticks));
    assert CounterIs(o.st.objs, w.cfg.id, Kept(old', x) + tail');
  }

  lemma ExtendUnrecorded(w: World, m: nat, h: History, es: seq<seq<nat>>, tail: seq<nat>, job: Job, o: Outcome)
    returns (tail': seq<nat>)
    requires ClockMonotone(w.env) && RunHistory(w, m, h, es, tail) && JobCeiling(job, m) && !Unrecorded(h, tail)
    requires o == Atomic(w, job, h.token) && o.recorded.None?
    ensures InEpochs(NextEpochs(w, es, h.token, o), Recorded(h.events) + [], tail', m, w.env.clock(o.st.ticks))
    ensures exists old' :: CounterIs(o.st.objs, w.cfg.id, old' + tail')
  {
    var old' :| CounterIs(h.token.objs, w.cfg.id, old' + tail);
    JobStep(w, h.token, old' + tail, job, m);
    var from, till := w.env.clock(h.token.ticks), w.env.clock(o.st.ticks);
    if Lost(w, h.token, o) {
      tail' := [];
      EpochOpens(es, Recorded(h.events), tail, m, from, till);
      assert [] + tail' == [] && CounterIs(o.st.objs, w.cfg.id, [] + tail');
    } else {
      tail' := tail;
      EpochStays(es, Recorded(h.events), tail, m, from, till);
      assert CounterIs(o.st.objs, w.cfg.id, old' + tail');
    }
  }

  lemma EpochsUnrecorded(w: World, m: nat, h: History, es: seq<seq<nat>>, o: Outcome)
    requires ClockMonotone(w.env) && RunHistory(w, m, h, es, []) && h.token.ticks <= o.st.ticks && o.recorded.None?
    ensures InEpochs(NextEpochs(w, es, h.token, o), Recorded(h.events) + [], [], m, w.env.clock(o.st.ticks))
  {
    var from, till := w.env.clock(h.token.ticks), w.env.clock(o.st.ticks);
    if Lost(w, h.token, o) {
      EpochOpens(es, Recorded(h.events), [], m, from, till);
    } else {
      EpochStays(es, Recorded(h.events), [], m, from, till);
    }
  }

  lemma RecordedAppend(h: History, job: Job, o: Outcome)
    ensures Recorded(Append(h, job, o).events)
         == Recorded(h.events) + if o.recorded.Some? then [o.recorded.value] else []
  {
    var e := Append(h, job, o).events;
    assert e[..|e| - 1] == h.events;
  }

  lemma PrunedLater(ts: seq<nat>, history: seq<nat>, from: nat, till: nat)
    requires PrunedFrom(ts, history, from) && from <= till
    ensures PrunedFrom(ts, history, till)
  {
  }

  // The pruned list after a call admitted at x.
  lemma ExtendPruned(ts: seq<nat>, history: seq<nat>, x: nat, max: u32, from: nat, till: nat)
    requires PrunedFrom(ts, history, from) && Admit(max, ts, x).Ok? && from <= x <= till
    ensures PrunedFrom(Admit(max, ts, x).value, history + [x], till)
  {
    PrunedLater(ts, history, from, x);
    AdmitKeepsPruned(ts, history, x, max);
    PrunedLater(Admit(max, ts, x).value, history + [x], x, till);
  }

  // The last epoch, one call longer.
  function Longer(es: seq<seq<nat>>, x: nat): (es': seq<seq<nat>>)
    requires es != []
    ensures |es'| == |es| && es'[|es| - 1] == es[|es| - 1] + [x]
  {
    es[..|es| - 1] + [es[|es| - 1] + [x]]
  }

  lemma EpochGrows(es: seq<seq<nat>>, history: seq<nat>, tail: seq<nat>, m: nat, x: nat, max: u32, from: nat, till: nat)
    requires InEpochs(es, history, tail, m, from) && from <= x <= till
    requires max <= m && Admit(max, tail, x).Ok?
    ensures InEpochs(Longer(es, x), history + [x], Admit(max, tail, x).value, m, till)
  {
    ExtendPruned(tail, es[|es| - 1], x, max, from, till);
    ExtendSteady(es, tail, x, max, m, from);
    FlattenLast(es, x);
  }

  lemma EpochOpens(es: seq<seq<nat>>, history: seq<nat>, tail: seq<nat>, m: nat, from: nat, till: nat)
    requires InEpochs(es, history, tail, m, from)
    ensures InEpochs(es + [[]], history + [], [], m, till)
  {
    AppendSteady(es, [], m);
    FlattenOpened(es);
    PrunedOpened(es, till);
    assert history + [] == history;
  }

  lemma FlattenOpened(es: seq<seq<nat>>)
    ensures Flatten(es + [[]]) == Flatten(es)
  {
    FlattenAppend(es, []);
    assert Flatten(es) + [] == Flatten(es);
  }

  lemma PrunedOpened(es: seq<seq<nat>>, till: nat)
    ensures PrunedFrom([], (es + [[]])[|es + [[]]| - 1], till)
  {
    assert (es + [[]])[|es + [[]]| - 1] == [];
  }

  lemma EpochStays(es: seq<seq<nat>>, history: seq<nat>, tail: seq<nat>, m: nat, from: nat, till: nat)
    requires InEpochs(es, history, tail, m, from) && from <= till
    ensures InEpochs(es, history + [], tail, m, till)
  {
    PrunedLater(tail, es[|es| - 1], from, till);
  }

  lemma ExtendSteady(es: seq<seq<nat>>, tail: seq<nat>, x: nat, max: u32, m: nat, from: nat)
    requires es != [] && AllSteady(es, m) && PrunedFrom(tail, es[|es| - 1], from)
    requires max <= m && Admit(max, tail, x).Ok? && from <= x
    ensures AllSteady(Longer(es, x), m)
  {
    var last := es[|es| - 1];
    assert Steady(last, m);
    PrunedLater(tail, last, from, x);
    AdmitKeepsSpacing(tail, last, x, max, m);
    ReplaceLast(es, last + [x], m);
  }

  lemma ReplaceLast(es: seq<seq<nat>>, last: seq<nat>, m: nat)
    requires es != [] && AllSteady(es, m) && Steady(last, m)
    ensures AllSteady(es[..|es| - 1] + [last], m)
  {
  }

  lemma AppendSteady(es: seq<seq<nat>>, last: seq<nat>, m: nat)
    requires AllSteady(es, m) && Steady(last, m)
    ensures AllSteady(es + [last], m)
  {
  }

  lemma FlattenAppend(es: seq<seq<nat>>, last: seq<nat>)
    ensures Flatten(es + [last]) == Flatten(es) + last
  {
    assert (es + [last])[..|es|] == es;
  }

  lemma FlattenLast(es: seq<seq<nat>>, x: nat)
    requires es != []
    ensures Flatten(Longer(es, x)) == Flatten(es) + [x]
  {
    var init, last := es[..|es| - 1], es[|es| - 1];
    FlattenAppend(init, last + [x]);
    FlattenAppend(init, last);
    assert init + [last] == es;
    assert Flatten(init) + (last + [x]) == Flatten(init) + last + [x];
  }

  // ------------------------------------------------------------------------------------------
  // The bound
  // ------------------------------------------------------------------------------------------

  lemma {:induction false} EpochsBound(es: seq<seq<nat>>, m: nat, a: nat)
    requires AllSteady(es, m)
    ensures CountIn(Flatten(es), a, a + 3600) <= m * |es|
    decreases |es|
  {
    if es != [] {
      var init, last := es[..|es| - 1], es[|es| - 1];
      assert Steady(last, m);
      EpochsBound(init, m, a);
      SpacedWindow(last, m, a);
      CountSplit(Flatten(init), last, a, a + 3600);
      OneMore(m, |init|);
    }
  }

  lemma OneMore(m: nat, n: nat)
    ensures m * (n + 1) == m * n + m
  {
  }

  lemma HistoryBound(es: seq<seq<nat>>, history: seq<nat>, tail: seq<nat>, m: nat, now: nat, a: nat, losses: nat)
    requires InEpochs(es, history, tail, m, now) && |es| == 1 + losses
    ensures CountIn(history, a, a + 3600) <= m + m * losses
  {
    EpochsBound(es, m, a);
    OneMore(m, losses);
  }

  // The calls of a run that returned Ok having signed under a ceiling number at most m in any
  // window of an hour, both ends included, for each unbroken life of the counter. Whatever the
  // token held before, any lists, several records or unreadable ones, can only make this fewer.
  lemma SerialWindowBound(w: World, t: TokenState, jobs: seq<Job>, m: nat, a: nat)
    requires ClockMonotone(w.env) && Usable(w, t, m) && Ceilings(jobs, m)
    ensures CountIn(Recorded(Serial(w, t, jobs).events), a, a + 3600) <= m + m * Losses(w, t, jobs)
  {
    var tail := SerialRunHistory(w, t, jobs, m);
    EpochCount(w, t, jobs);
    var h := Serial(w, t, jobs);
    HistoryBound(Epochs(w, t, jobs), Recorded(h.events), tail, m, w.env.clock(h.token.ticks), a, Losses(w, t, jobs));
  }

  lemma SerialBoundLossless(w: World, t: TokenState, jobs: seq<Job>, m: nat, a: nat)
    requires ClockMonotone(w.env) && Usable(w, t, m) && Ceilings(jobs, m) && Losses(w, t, jobs) == 0
    ensures CountIn(Recorded(Serial(w, t, jobs).events), a, a + 3600) <= m
  {
    var tail := SerialRunHistory(w, t, jobs, m);
    EpochCount(w, t, jobs);
    var h := Serial(w, t, jobs);
    HistoryBound(Epochs(w, t, jobs), Recorded(h.events), tail, m, w.env.clock(h.token.ticks), a, 0);
  }

  lemma {:induction false} RecordedPrefix(a: seq<Event>, b: seq<Event>, lo: nat, hi: nat)
    requires a <= b
    ensures CountIn(Recorded(a), lo, hi) <= CountIn(Recorded(b), lo, hi)
    decreases |b|
  {
    if |a| < |b| {
      var init := b[..|b| - 1];
      RecordedPrefix(a, init, lo, hi);
      CountSplit(Recorded(init), Recorded(b)[|Recorded(init)|..], lo, hi);
      assert Recorded(b) == Recorded(init) + Recorded(b)[|Recorded(init)|..];
    } else {
      assert a == b;
    }
  }

  lemma PrefixBound(w: World, t: TokenState, s: Sys, m: nat, a: nat)
    requires ClockMonotone(w.env) && Usable(w, t, m) && Ceilings(s.order, m)
    requires s.events <= Serial(w, t, s.order).events
    ensures CountIn(Recorded(s.events), a, a + 3600) <= m + m * Losses(w, t, s.order)
  {
    SerialWindowBound(w, t, s.order, m, a);
    RecordedPrefix(s.events, Serial(w, t, s.order).events, a, a + 3600);
  }

  // The bound over every interleaving of any number of clones.
  lemma ClonesWindowBound(w: World, t: TokenState, actions: seq<Action>, m: nat, a: nat)
    requires ClockMonotone(w.env) && Usable(w, t, m) && Ceilings(Run(w, Start(t), actions).order, m)
    ensures var s := Run(w, Start(t), actions);
            CountIn(Recorded(s.events), a, a + 3600) <= m + m * Losses(w, t, s.order)
  {
    EventsAreSerial(w, t, actions);
    PrefixBound(w, t, Run(w, Start(t), actions), m, a);
  }

  // ------------------------------------------------------------------------------------------
  // The counter against the whole history
  // ------------------------------------------------------------------------------------------

  // From a sorted list that is not ahead of the clock, as long as the counter is not lost, the
  // stored list is what pruning left of that list and of all calls recorded since.
  lemma {:induction false} PrunedFromAll(w: World, t: TokenState, jobs: seq<Job>, m: nat, ts0: seq<nat>)
    returns (ts: seq<nat>)
    requires ClockMonotone(w.env)
    requires Usable(w, t, m) && CounterIs(t.objs, w.cfg.id, ts0) && Ceilings(jobs, m)
    requires Sorted(ts0) && (forall i :: 0 <= i < |ts0| ==> ts0[i] <= w.env.clock(t.ticks))
    requires Losses(w, t, jobs) == 0
    ensures var h := Serial(w, t, jobs);
            && Usable(w, h.token, m) && CounterIs(h.token.objs, w.cfg.id, ts)
            && PrunedFrom(ts, ts0 + Recorded(h.events), w.env.clock(h.token.ticks))
    decreases |jobs|
  {
    if jobs == [] {
      ts := ts0;
      assert ts0 + [] == ts0;
    } else {
      var rest, job := jobs[..|jobs| - 1], jobs[|jobs| - 1];
      var h := Serial(w, t, rest);
      ts := PrunedFromAll(w, t, rest, m, ts0);
      JobStep(w, h.token, ts, job, m);
      ts := NextPruned(w, h, ts, ts0, job, Atomic(w, job, h.token), m);
    }
  }

  lemma NextPruned(w: World, h: History, ts: seq<nat>, ts0: seq<nat>, job: Job, o: Outcome, m: nat)
    returns (ts': seq<nat>)
    requires ClockMonotone(w.env) && RateStep(w, h.token, ts, o, m) && CounterIs(h.token.objs, w.cfg.id, ts)
    requires PrunedFrom(ts, ts0 + Recorded(h.events), w.env.clock(h.token.ticks)) && !Lost(w, h.token, o)
    ensures CounterIs(o.st.objs, w.cfg.id, ts')
    ensures PrunedFrom(ts', ts0 + Recorded(Append(h, job, o).events), w.env.clock(o.st.ticks))
  {
    RecordedAppend(h, job, o);
    var from, till := w.env.clock(h.token.ticks), w.env.clock(o.st.ticks);
    if o.recorded.Some? {
      var max := CeilingOf(w, h.token, ts, o, m);
      ts' := Admit(max, ts, o.recorded.value).value;
      PrunedOneMore(ts, ts0, Recorded(h.events), o.recorded.value, max, from, till);
    } else {
      ts' := ts;
      PrunedNoMore(ts, ts0, Recorded(h.events), from, till);
    }
  }

  lemma PrunedOneMore(ts: seq<nat>, ts0: seq<nat>, history: seq<nat>, x: nat, max: u32, from: nat, till: nat)
    requires PrunedFrom(ts, ts0 + history, from) && Admit(max, ts, x).Ok? && from <= x <= till
    ensures PrunedFrom(Admit(max, ts, x).value, ts0 + (history + [x]), till)
  {
    ExtendPruned(ts, ts0 + history, x, max, from, till);
    assert ts0 + history + [x] == ts0 + (history + [x]);
  }

  lemma PrunedNoMore(ts: seq<nat>, ts0: seq<nat>, history: seq<nat>, from: nat, till: nat)
    requires PrunedFrom(ts, ts0 + history, from) && from <= till
    ensures PrunedFrom(ts, ts0 + (history + []), till)
  {
    PrunedLater(ts, ts0 + history, from, till);
    assert history + [] == history;
  }

  // So at every check the list pruned on the token counts that whole history.
  lemma CounterRefinesHistory(w: World, t: TokenState, jobs: seq<Job>, m: nat, ts0: seq<nat>, now: nat)
    returns (ts: seq<nat>)
    requires ClockMonotone(w.env)
    requires Usable(w, t, m) && CounterIs(t.objs, w.cfg.id, ts0) && Ceilings(jobs, m)
    requires Sorted(ts0) && (forall i :: 0 <= i < |ts0| ==> ts0[i] <= w.env.clock(t.ticks))
    requires Losses(w, t, jobs) == 0 && w.env.clock(Serial(w, t, jobs).token.ticks) <= now
    ensures var h := Serial(w, t, jobs);
            && CounterIs(h.token.objs, w.cfg.id, ts)
            && |Kept(ts, now)| == InLastHour(ts0 + Recorded(h.events), now)
  {
    var h := Serial(w, t, jobs);
    ts := PrunedFromAll(w, t, jobs, m, ts0);
    PrunedLater(ts, ts0 + Recorded(h.events), w.env.clock(h.token.ticks), now);
    PrunedCountsHistory(ts, ts0 + Recorded(h.events), now);
  }
}
