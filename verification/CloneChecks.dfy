// What a clone counts when it comes to its rate check, in the middle of an interleaving.
module CloneChecks {
  import opened TokenModel
  import opened Store
  import opened SigRate
  import opened Backend
  import opened PsbtModel
  import opened SigningEffect
  import opened SigningTheorems
  import opened Elements
  import opened Clones
  import opened RateCalls
  import opened RateBound
  import opened RateLoss

  // Where a call that took the lock on the token `base` stands: up to its rate check it has only
  // added session keys, and the list it then loads is the one `base` holds.
  ghost predicate Inside(w: World, base: TokenState, pc: Pc, u: TokenState) {
    match pc
    case Entered(_) => u == base
    case WithPolicy(_, _) => Grows(base, u)
    case Signed(_) => Grows(base, u)
    case WithCounter(_, counter) => Grows(base, u) && OnlyReads(base, w.cfg.id, counter)
    case _ => true
  }

  // No other list can be read off the token.
  ghost predicate OnlyReads(t: TokenState, id: string, counter: seq<nat>) {
    forall ts :: CounterIs(t.objs, id, ts) ==> ts == counter
  }

  lemma AdvanceStaysInside(w: World, base: TokenState, pc: Pc, u: TokenState, m: nat)
    requires Usable(w, base, m) && Inside(w, base, pc, u)
    ensures var (pc', u') := Advance(w, pc, u);
            Inside(w, base, pc', u')
  {
    if pc.Entered? {
      EntryStaysInside(w, base, pc, m);
    } else if pc.WithPolicy? {
      LoopStaysInside(w, base, pc, u, m);
      AfterLoop(w, pc, u);
    } else if pc.Signed? {
      LoadStaysInside(w, base, u, m);
    } else {
      PastCounter(w, base, pc, u);
    }
  }

  // After the loop the call goes to its rate check or ends.
  lemma AfterLoop(w: World, pc: Pc, u: TokenState)
    requires pc.WithPolicy?
    ensures var pc' := Advance(w, pc, u).0;
            pc'.Signed? || pc'.Leaving?
  {
  }

  // From the loaded list on there is nothing left to keep.
  lemma PastCounter(w: World, base: TokenState, pc: Pc, u: TokenState)
    requires !pc.Entered? && !pc.WithPolicy? && !pc.Signed?
    requires Inside(w, base, pc, u)
    ensures var (pc', u') := Advance(w, pc, u);
            Inside(w, base, pc', u')
  {
  }

  lemma EntryStaysInside(w: World, base: TokenState, pc: Pc, m: nat)
    requires Usable(w, base, m) && pc.Entered?
    ensures var (pc', u) := Advance(w, pc, base);
            Inside(w, base, pc', u)
  {
    LoadPolicyFrame(w.env, base, w.cfg.id);
  }

  lemma LoopStaysInside(w: World, base: TokenState, pc: Pc, u: TokenState, m: nat)
    requires Usable(w, base, m) && pc.WithPolicy? && Grows(base, u)
    ensures Grows(base, Advance(w, pc, u).1)
  {
    match pc.job
    case SignBitcoin(psbt) =>
      SignFromToken(w.env, w.lib, w.cfg, u, psbt.tx, Facts(psbt.inputs), 0);
      GrowsTransitive(base, u, Advance(w, pc, u).1);
    case SignElements(pset) =>
      if w.elib.extract(pset).Some? {
        SignPsetToken(w.env, w.elib, w.cfg, u, w.elib.extract(pset).value, PsetFactsOf(pset.inputs), 0);
        GrowsTransitive(base, u, Advance(w, pc, u).1);
      }
    case _ =>
  }

  lemma LoadStaysInside(w: World, base: TokenState, u: TokenState, m: nat)
    requires Usable(w, base, m) && Grows(base, u)
    ensures var l := LoadSigrate(w.env, u, w.cfg.id);
            Grows(base, l.st) && (l.res.Ok? ==> OnlyReads(base, w.cfg.id, l.res.value))
  {
    GrowsUntouched(w, base, u, m);
    SameRecordsSameCounter(base.objs, u.objs, w.cfg.id);
    var l := LoadSigrate(w.env, u, w.cfg.id);
    forall ts | CounterIs(base.objs, w.cfg.id, ts)
      ensures l.res.Ok? ==> ts == l.res.value
    {
      LoadCounter(w.env, u, w.cfg.id, ts);
    }
  }

  // The token on which the call that holds the lock was entered.
  function Base(w: World, t: TokenState, order: seq<Job>): TokenState
    requires order != []
  {
    Serial(w, t, order[..|order| - 1]).token
  }

  ghost predicate Holding(w: World, t: TokenState, s: Sys) {
    s.holder.Some? ==> s.order != [] && Inside(w, Base(w, t, s.order), PcOf(s, s.holder.value), s.token)
  }

  lemma StepKeepsHolding(w: World, t: TokenState, s: Sys, a: Action, m: nat)
    requires Linear(w, t, s) && Holding(w, t, s)
    requires Usable(w, t, m) && Ceilings(s.order, m)
    ensures Holding(w, t, Step(w, s, a))
  {
    match a
    case Begin(p, job) =>
      if s.holder.None? && PcOf(s, p) == Idle {
        assert (s.order + [job])[..|s.order|] == s.order;
      }
    case Go(p) =>
      if PcOf(s, p) != Idle {
        LossesIff(w, t, s.order[..|s.order| - 1], m);
        AdvanceStaysInside(w, Base(w, t, s.order), PcOf(s, p), s.token, m);
      }
    case Leave(p) =>
  }

  lemma StepKeepsOrder(w: World, s: Sys, a: Action)
    ensures s.order <= Step(w, s, a).order
  {
  }

  lemma {:induction false} RunHolding(w: World, t: TokenState, actions: seq<Action>, m: nat)
    requires Usable(w, t, m) && Ceilings(Run(w, Start(t), actions).order, m)
    ensures Holding(w, t, Run(w, Start(t), actions))
    decreases |actions|
  {
    if actions != [] {
      var before, a := actions[..|actions| - 1], actions[|actions| - 1];
      var s := Run(w, Start(t), before);
      StepKeepsOrder(w, s, a);
      assert forall j :: 0 <= j < |s.order| ==> s.order[j] == Step(w, s, a).order[j];
      RunHolding(w, t, before, m);
      ClonesLinearize(w, t, before);
      StepKeepsHolding(w, t, s, a, m);
    }
  }

  // The results seen so far are those of the calls before the one that holds the lock.
  lemma EventsBefore(w: World, t: TokenState, s: Sys)
    requires Linear(w, t, s) && s.holder.Some?
    ensures s.order != [] && s.events == Serial(w, t, s.order[..|s.order| - 1]).events
  {
    var h := Serial(w, t, s.order[..|s.order| - 1]);
    var e := Serial(w, t, s.order).events;
    assert e[..|e| - 1] == s.events;
    assert e[..|e| - 1] == h.events;
  }

  // In every interleaving: a clone that comes to its check, with no save cut before it, counts
  // the entries of the starting list and the calls that returned Ok under a ceiling, of all
  // clones, in the hour before its check; and it goes on to record its call if and only if there
  // are fewer than its ceiling allows.
  lemma CheckCountsHistory(w: World, t: TokenState, actions: seq<Action>, m: nat, ts0: seq<nat>)
    requires ClockMonotone(w.env) && Usable(w, t, m) && CounterIs(t.objs, w.cfg.id, ts0)
    requires Sorted(ts0) && forall i :: 0 <= i < |ts0| ==> ts0[i] <= w.env.clock(t.ticks)
    requires var s := Run(w, Start(t), actions);
             && Ceilings(s.order, m)
             && s.holder.Some? && PcOf(s, s.holder.value).WithCounter?
             && s.order != [] && NoneCut(w, t, s.order[..|s.order| - 1])
    ensures var s := Run(w, Start(t), actions);
            var pc := PcOf(s, s.holder.value);
            var now := w.env.clock(s.token.ticks);
            var count := InLastHour(ts0 + Recorded(s.events), now);
            && |Kept(pc.counter, now)| == count
            && (Advance(w, pc, s.token).0.Admitted? <==> count < pc.max)
  {
    var s := Run(w, Start(t), actions);
    ClonesLinearize(w, t, actions);
    RunHolding(w, t, actions, m);
    EventsBefore(w, t, s);
    CountsOnBase(w, t, s.order[..|s.order| - 1], m, ts0, PcOf(s, s.holder.value), s.token);
    AdmitsBelow(w, PcOf(s, s.holder.value), s.token);
  }

  lemma CountsOnBase(w: World, t: TokenState, jobs: seq<Job>, m: nat, ts0: seq<nat>, pc: Pc, u: TokenState)
    requires ClockMonotone(w.env) && Usable(w, t, m) && CounterIs(t.objs, w.cfg.id, ts0)
    requires Sorted(ts0) && forall i :: 0 <= i < |ts0| ==> ts0[i] <= w.env.clock(t.ticks)
    requires Ceilings(jobs, m) && NoneCut(w, t, jobs)
    requires pc.WithCounter? && Inside(w, Serial(w, t, jobs).token, pc, u)
    ensures var now := w.env.clock(u.ticks);
            |Kept(pc.counter, now)| == InLastHour(ts0 + Recorded(Serial(w, t, jobs).events), now)
  {
    LossesIff(w, t, jobs, m);
    var ts := CounterRefinesHistory(w, t, jobs, m, ts0, w.env.clock(u.ticks));
    assert ts == pc.counter;
  }

  lemma AdmitsBelow(w: World, pc: Pc, t: TokenState)
    requires pc.WithCounter?
    ensures Advance(w, pc, t).0.Admitted? <==> |Kept(pc.counter, w.env.clock(t.ticks))| < pc.max
  {
  }
}
