// Which runs keep the counter, and the ceiling as the bound for them.
module RateLoss {
  import opened Policy
  import opened TokenModel
  import opened SigRate
  import opened CounterLoss
  import opened Clones
  import opened RateCalls
  import opened RateBound

  // The save of the counter in this call is cut: all destroys served, the create refused.
  predicate Cut(w: World, t: TokenState, job: Job) {
    var c := CheckOf(w, t, job);
    && c.Some? && c.value.policy.maxSignaturesPerHour.Some? && !NoCounter(c.value.st.objs, w.cfg.id)
    && ReplaceCut(w.env, c.value.st, w.cfg.id, c.value.policy.maxSignaturesPerHour.value)
  }

  // No call of the run has its save cut.
  predicate NoneCut(w: World, t: TokenState, jobs: seq<Job>)
    decreases |jobs|
  {
    jobs == [] ||
    (var rest := jobs[..|jobs| - 1];
     NoneCut(w, t, rest) && !Cut(w, Serial(w, t, rest).token, jobs[|jobs| - 1]))
  }

  lemma JobLosesIff(w: World, t: TokenState, job: Job, m: nat)
    requires Usable(w, t, m) && JobCeiling(job, m)
    ensures Lost(w, t, Atomic(w, job, t)) <==> Cut(w, t, job)
  {
    CheckDecides(w, t, job, m);
    var c := CheckOf(w, t, job);
    if c.Some? {
      SameRecordsSameCounter(t.objs, c.value.st.objs, w.cfg.id);
      CheckLosesCut(w, c.value.st, c.value.policy);
    } else {
      SameRecordsSameCounter(t.objs, Atomic(w, job, t).st.objs, w.cfg.id);
    }
  }

  lemma CheckLosesCut(w: World, t: TokenState, policy: HsmPolicy)
    requires Valid(t) && Enumerates(w.env)
    ensures Lost(w, t, OfRate(CheckAndRecord(w.env, t, w.cfg.id, policy))) <==>
              && policy.maxSignaturesPerHour.Some? && !NoCounter(t.objs, w.cfg.id)
              && ReplaceCut(w.env, t, w.cfg.id, policy.maxSignaturesPerHour.value)
  {
    if !NoCounter(t.objs, w.cfg.id) {
      CheckCutIff(w.env, t, w.cfg.id, policy);
      CheckRecords(w.env, t, w.cfg.id, policy);
    }
  }

  // A run keeps its counter exactly when no save of it is cut, whatever the token held before.
  // Refusals of any other call, be it a load, a signature, a derivation or a cleanup, lose
  // nothing.
  lemma {:induction false} LossesIff(w: World, t: TokenState, jobs: seq<Job>, m: nat)
    requires Usable(w, t, m) && Ceilings(jobs, m)
    ensures Losses(w, t, jobs) == 0 <==> NoneCut(w, t, jobs)
    ensures Usable(w, Serial(w, t, jobs).token, m)
    decreases |jobs|
  {
    if jobs != [] {
      var rest, job := jobs[..|jobs| - 1], jobs[|jobs| - 1];
      LossesIff(w, t, rest, m);
      AnyStep(w, Serial(w, t, rest).token, job, m);
      JobLosesIff(w, Serial(w, t, rest).token, job, m);
      LastLoss(w, t, jobs);
    }
  }

  lemma LastLoss(w: World, t: TokenState, jobs: seq<Job>)
    requires jobs != []
    ensures var rest, job := jobs[..|jobs| - 1], jobs[|jobs| - 1];
            var before := Serial(w, t, rest).token;
            && (Losses(w, t, jobs) == 0 <==> Losses(w, t, rest) == 0 && !Lost(w, before, Atomic(w, job, before)))
            && (NoneCut(w, t, jobs) <==> NoneCut(w, t, rest) && !Cut(w, before, job))
  {
  }

  // In particular a token that refuses no call cuts no save.
  lemma {:induction false} UnrefusedUncut(w: World, t: TokenState, jobs: seq<Job>)
    requires forall k: nat :: !w.env.fails(k)
    ensures NoneCut(w, t, jobs)
    decreases |jobs|
  {
    if jobs != [] {
      UnrefusedUncut(w, t, jobs[..|jobs| - 1]);
    }
  }

  // Over every interleaving of clones, from any token: the ceiling is the bound as long as no
  // save is cut.
  lemma ClonesWindowBoundUncut(w: World, t: TokenState, actions: seq<Action>, m: nat, a: nat)
    requires ClockMonotone(w.env) && Usable(w, t, m)
    requires Ceilings(Run(w, Start(t), actions).order, m) && NoneCut(w, t, Run(w, Start(t), actions).order)
    ensures CountIn(Recorded(Run(w, Start(t), actions).events), a, a + 3600) <= m
  {
    EventsAreSerial(w, t, actions);
    UncutBound(w, t, Run(w, Start(t), actions), m, a);
  }

  lemma UncutBound(w: World, t: TokenState, s: Sys, m: nat, a: nat)
    requires ClockMonotone(w.env) && Usable(w, t, m) && Ceilings(s.order, m) && NoneCut(w, t, s.order)
    requires s.events <= Serial(w, t, s.order).events
    ensures CountIn(Recorded(s.events), a, a + 3600) <= m
  {
    LossesIff(w, t, s.order, m);
    SerialBoundLossless(w, t, s.order, m, a);
    RecordedPrefix(s.events, Serial(w, t, s.order).events, a, a + 3600);
  }
}
