// Clones of one signer share its session behind a mutex. Each clone is a process that takes the
// steps of its call one at a time; the calls take effect one after the other all the same.
module Clones {
  import opened Results
  import opened Policy
  import opened Labels
  import opened TokenModel
  import opened Store
  import opened SigRate
  import opened PsbtModel
  import opened Signer
  import opened Elements

  // What all clones have in common.
  datatype World = World(env: Env, lib: Library, elib: ElementsLibrary, cfg: Config)

  datatype Job = SignBitcoin(psbt: Psbt) | SignElements(pset: Pset) | ReadPolicy | WritePolicy(policy: HsmPolicy)

  // How a call ends: its verdict and the timestamp it recorded, if it did.
  datatype Outcome = Outcome(res: Result<()>, recorded: Option<nat>, st: TokenState)

  function Failed(e: Error, t: TokenState): Outcome {
    Outcome(Err(e), None, t)
  }

  function OfCall(c: Call): Outcome {
    Outcome(c.res, c.recorded, c.st)
  }

  function OfPsetCall(c: PsetCall): Outcome {
    Outcome(if c.res.Ok? then Ok(()) else Err(c.res.error), c.recorded, c.st)
  }

  function OfRate(r: Ran<Option<nat>>): Outcome {
    if r.res.Ok? then Outcome(Ok(()), r.res.value, r.st) else Failed(r.res.error, r.st)
  }

  function OfSave(r: Ran<Handle>, recorded: Option<nat>): Outcome {
    if r.res.Ok? then Outcome(Ok(()), recorded, r.st) else Failed(r.res.error, r.st)
  }

  // A whole call, undisturbed.
  function Atomic(w: World, job: Job, t: TokenState): Outcome {
    match job
    case SignBitcoin(psbt) => OfCall(SignTransaction(w.env, w.lib, w.cfg, t, psbt))
    case SignElements(pset) => OfPsetCall(SignPset(w.env, w.elib, w.cfg, t, pset))
    case ReadPolicy =>
      var l := LoadPolicy(w.env, t, w.cfg.id);
      Outcome(if l.res.Ok? then Ok(()) else Err(l.res.error), None, l.st)
    case WritePolicy(p) => OfSave(SaveData(w.env, t, ObjectLabel(w.cfg.id, PolicySuffix), PolicyJson(p)), None)
  }

  // ------------------------------------------------------------------------------------------
  // The steps of one process
  // ------------------------------------------------------------------------------------------

  // Where a process is inside its call, with its local variables.
  datatype Pc =
    | Idle
    | Entered(job: Job)                                 // holds the lock
    | WithPolicy(policy: HsmPolicy, job: Job)           // has read the policy
    | Signed(policy: HsmPolicy)                         // the loop ended and signed something
    | WithCounter(max: u32, counter: seq<nat>)          // has read the counter
    | Admitted(now: nat, list: seq<nat>)                // pruned, counted, admitted
    | Destroying(recorded: Option<nat>, name: string, value: Value, left: seq<Handle>)
    | Leaving(res: Result<()>, recorded: Option<nat>)   // about to drop the guard

  // One step: the new place and the new token.
  function Advance(w: World, pc: Pc, t: TokenState): (Pc, TokenState) {
    match pc
    case Idle => (pc, t)
    case Entered(WritePolicy(p)) =>
      var name := ObjectLabel(w.cfg.id, PolicySuffix);
      var f := Find(w.env, t, Data, name);
      (if f.res.Ok? then Destroying(None, name, PolicyJson(p), f.res.value) else Leaving(Err(f.res.error), None), f.st)
    case Entered(ReadPolicy) =>
      var l := LoadPolicy(w.env, t, w.cfg.id);
      (Leaving(if l.res.Ok? then Ok(()) else Err(l.res.error), None), l.st)
    case Entered(job) =>
      var l := LoadPolicy(w.env, t, w.cfg.id);
      (if l.res.Ok? then WithPolicy(l.res.value, job) else Leaving(Err(l.res.error), None), l.st)
    case WithPolicy(policy, SignBitcoin(psbt)) =>
      var v := Verdict(policy, psbt.tx, w.cfg.network);
      if v.Err? then (Leaving(Err(v.error), None), t)
      else
        var p := SignFrom(w.env, w.lib, w.cfg, t, psbt.tx, Facts(psbt.inputs), 0);
        (if p.res.Err? then Leaving(Err(p.res.error), None)
         else if p.res.value then Signed(policy) else Leaving(Ok(()), None), p.st)
    case WithPolicy(policy, SignElements(pset)) =>
      var tx := w.elib.extract(pset);
      if tx.None? then (Leaving(Err(ExtractFailure), None), t)
      else
        var p := SignPsetFrom(w.env, w.elib, w.cfg, t, tx.value, PsetFactsOf(pset.inputs), 0);
        (if p.res.Err? then Leaving(Err(p.res.error), None)
         else if p.res.value > 0 then Signed(policy) else Leaving(Ok(()), None), p.st)
    case WithPolicy(_, _) => (Leaving(Ok(()), None), t)
    case Signed(policy) =>
      if policy.maxSignaturesPerHour.None? then (Leaving(Ok(()), None), t)
      else
        var l := LoadSigrate(w.env, t, w.cfg.id);
        (if l.res.Err? then Leaving(Err(l.res.error), None)
         else WithCounter(policy.maxSignaturesPerHour.value, l.res.value), l.st)
    case WithCounter(max, counter) =>
      var now := w.env.clock(t.ticks);
      var a := Admit(max, counter, now);
      (if a.Err? then Leaving(Err(a.error), None) else Admitted(now, a.value), t)
    case Admitted(now, list) =>
      var name := ObjectLabel(w.cfg.id, SigRateSuffix);
      var f := Find(w.env, t, Data, name);
      (if f.res.Ok? then Destroying(Some(now), name, SigRateJson(list), f.res.value)
       else Leaving(Err(f.res.error), None), f.st)
    case Destroying(recorded, name, value, left) =>
      if left == [] then
        var c := Create(w.env, t, DataObject(name, value));
        (if c.res.Ok? then Leaving(Ok(()), recorded) else Leaving(Err(c.res.error), None), c.st)
      else
        var d := Destroy(w.env, t, left[0]);
        (if d.res.Ok? then Destroying(recorded, name, value, left[1..]) else Leaving(Err(d.res.error), None), d.st)
    case Leaving(_, _) => (pc, t)
  }

  // What the process would reach if nobody else moved any more.
  function Finish(w: World, pc: Pc, t: TokenState): Outcome {
    match pc
    case Idle => Outcome(Ok(()), None, t)
    case Entered(job) => Atomic(w, job, t)
    case WithPolicy(policy, SignBitcoin(psbt)) => OfCall(SignUnder(w.env, w.lib, w.cfg, t, policy, psbt))
    case WithPolicy(policy, SignElements(pset)) => OfPsetCall(SignPsetUnder(w.env, w.elib, w.cfg, t, policy, pset))
    case WithPolicy(_, _) => Outcome(Ok(()), None, t)
    case Signed(policy) => OfRate(CheckAndRecord(w.env, t, w.cfg.id, policy))
    case WithCounter(max, counter) => OfRate(RecordLoaded(w.env, t, w.cfg.id, max, counter))
    case Admitted(now, list) =>
      OfSave(SaveData(w.env, t, ObjectLabel(w.cfg.id, SigRateSuffix), SigRateJson(list)), Some(now))
    case Destroying(recorded, name, value, left) => OfSave(Replace(w.env, t, left, DataObject(name, value)), recorded)
    case Leaving(res, recorded) => Outcome(res, recorded, t)
  }

  // The steps are the call cut into pieces: a step never changes where the call ends.
  lemma AdvanceKeepsFinish(w: World, pc: Pc, t: TokenState)
    requires pc != Idle
    ensures var (pc', t') := Advance(w, pc, t);
            pc' != Idle && Finish(w, pc', t') == Finish(w, pc, t)
  {
    if pc.Entered? {
      EnteringKeepsFinish(w, pc, t);
    } else if pc.WithPolicy? {
      SigningKeepsFinish(w, pc, t);
    }
  }

  lemma EnteringKeepsFinish(w: World, pc: Pc, t: TokenState)
    requires pc.Entered?
    ensures var (pc', t') := Advance(w, pc, t);
            pc' != Idle && Finish(w, pc', t') == Finish(w, pc, t)
  {
  }

  lemma SigningKeepsFinish(w: World, pc: Pc, t: TokenState)
    requires pc.WithPolicy?
    ensures var (pc', t') := Advance(w, pc, t);
            pc' != Idle && Finish(w, pc', t') == Finish(w, pc, t)
  {
    match pc.job
    case SignBitcoin(_) => PsbtKeepsFinish(w, pc, t);
    case SignElements(_) => PsetKeepsFinish(w, pc, t);
    case _ =>
  }

  lemma PsbtKeepsFinish(w: World, pc: Pc, t: TokenState)
    requires pc.WithPolicy? && pc.job.SignBitcoin?
    ensures var (pc', t') := Advance(w, pc, t);
            pc' != Idle && Finish(w, pc', t') == Finish(w, pc, t)
  {
  }

  lemma PsetKeepsFinish(w: World, pc: Pc, t: TokenState)
    requires pc.WithPolicy? && pc.job.SignElements?
    ensures var (pc', t') := Advance(w, pc, t);
            pc' != Idle && Finish(w, pc', t') == Finish(w, pc, t)
  {
  }

  // Progress: every step of a call is one of finitely many.
  function Stage(pc: Pc): nat {
    match pc
    case Idle => 0
    case Entered(_) => 6
    case WithPolicy(_, _) => 5
    case Signed(_) => 4
    case WithCounter(_, _) => 3
    case Admitted(_, _) => 2
    case Destroying(_, _, _, _) => 1
    case Leaving(_, _) => 0
  }

  function Steps(w: World, pc: Pc, t: TokenState, n: nat): (Pc, TokenState)
    decreases n
  {
    if n == 0 then (pc, t)
    else
      var (pc', t') := Advance(w, pc, t);
      Steps(w, pc', t', n - 1)
  }

  // Left to itself, a process that holds the lock comes to release it, with the outcome of the
  // undisturbed call.
  lemma {:induction false} CallEnds(w: World, pc: Pc, t: TokenState) returns (n: nat)
    requires pc != Idle
    ensures var (pc', t') := Steps(w, pc, t, n);
            var o := Finish(w, pc, t);
            pc' == Leaving(o.res, o.recorded) && t' == o.st
    decreases Stage(pc), if pc.Destroying? then |pc.left| else 0
  {
    if pc.Leaving? {
      n := 0;
    } else {
      var (pc', t') := Advance(w, pc, t);
      AdvanceKeepsFinish(w, pc, t);
      var m := CallEnds(w, pc', t');
      n := m + 1;
    }
  }

  // ------------------------------------------------------------------------------------------
  // All processes together
  // ------------------------------------------------------------------------------------------

  datatype Event = Event(job: Job, res: Result<()>, recorded: Option<nat>)

  // `order` lists the calls in the order they took the lock, `events` those that returned.
  datatype Sys = Sys(holder: Option<nat>, pcs: map<nat, Pc>, token: TokenState, order: seq<Job>, events: seq<Event>)

  function PcOf(s: Sys, p: nat): Pc {
    if p in s.pcs then s.pcs[p] else Idle
  }

  datatype Action = Begin(p: nat, job: Job) | Go(p: nat) | Leave(p: nat)

  // Begin waits while the lock is taken. A process inside its call does not look at the lock.
  function Step(w: World, s: Sys, a: Action): Sys {
    match a
    case Begin(p, job) =>
      if s.holder.Some? || PcOf(s, p) != Idle then s
      else s.(holder := Some(p), pcs := s.pcs[p := Entered(job)], order := s.order + [job])
    case Go(p) =>
      var (pc, t) := Advance(w, PcOf(s, p), s.token);
      s.(pcs := s.pcs[p := pc], token := t)
    case Leave(p) =>
      if !PcOf(s, p).Leaving? || s.order == [] then s
      else
        var pc := PcOf(s, p);
        s.(holder := None, pcs := s.pcs[p := Idle],
           events := s.events + [Event(s.order[|s.order| - 1], pc.res, pc.recorded)])
  }

  function Run(w: World, s: Sys, actions: seq<Action>): Sys
    decreases |actions|
  {
    if actions == [] then s else Step(w, Run(w, s, actions[..|actions| - 1]), actions[|actions| - 1])
  }

  function Start(t: TokenState): Sys {
    Sys(None, map[], t, [], [])
  }

  // The same calls, one after the other.
  datatype History = History(token: TokenState, events: seq<Event>)

  function Append(h: History, job: Job, o: Outcome): History {
    History(o.st, h.events + [Event(job, o.res, o.recorded)])
  }

  function Serial(w: World, t: TokenState, jobs: seq<Job>): History
    decreases |jobs|
  {
    if jobs == [] then History(t, [])
    else
      var h := Serial(w, t, jobs[..|jobs| - 1]);
      Append(h, jobs[|jobs| - 1], Atomic(w, jobs[|jobs| - 1], h.token))
  }

  // At most one process is inside a call, and finishing that call gives the serial history.
  ghost predicate Linear(w: World, t: TokenState, s: Sys) {
    && (forall p: nat :: PcOf(s, p) != Idle ==> s.holder == Some(p))
    && (s.holder.None? ==> History(s.token, s.events) == Serial(w, t, s.order))
    && (s.holder.Some? ==>
          && PcOf(s, s.holder.value) != Idle && s.order != []
          && Append(History(s.token, s.events), s.order[|s.order| - 1], Finish(w, PcOf(s, s.holder.value), s.token))
          == Serial(w, t, s.order))
  }

  lemma StepKeepsLinear(w: World, t: TokenState, s: Sys, a: Action)
    requires Linear(w, t, s)
    ensures Linear(w, t, Step(w, s, a))
  {
    match a
    case Begin(p, job) => BeginKeepsLinear(w, t, s, p, job);
    case Go(p) => GoKeepsLinear(w, t, s, p);
    case Leave(p) => LeaveKeepsLinear(w, t, s, p);
  }

  lemma BeginKeepsLinear(w: World, t: TokenState, s: Sys, p: nat, job: Job)
    requires Linear(w, t, s)
    ensures Linear(w, t, Step(w, s, Begin(p, job)))
  {
    var s' := Step(w, s, Begin(p, job));
    if s' != s {
      assert s'.order[..|s'.order| - 1] == s.order;
    }
  }

  lemma GoKeepsLinear(w: World, t: TokenState, s: Sys, p: nat)
    requires Linear(w, t, s)
    ensures Linear(w, t, Step(w, s, Go(p)))
  {
    var s' := Step(w, s, Go(p));
    assert forall q: nat :: q != p ==> PcOf(s', q) == PcOf(s, q);
    if PcOf(s, p) != Idle {
      AdvanceKeepsFinish(w, PcOf(s, p), s.token);
    }
  }

  lemma LeaveKeepsLinear(w: World, t: TokenState, s: Sys, p: nat)
    requires Linear(w, t, s)
    ensures Linear(w, t, Step(w, s, Leave(p)))
  {
  }

  // Every interleaving of any number of clones, calls included that read or replace the policy:
  // whenever the lock is free, token and results are those of the calls run one after the other
  // in the order they took the lock.
  lemma {:induction false} ClonesLinearize(w: World, t: TokenState, actions: seq<Action>)
    ensures Linear(w, t, Run(w, Start(t), actions))
    decreases |actions|
  {
    if actions != [] {
      ClonesLinearize(w, t, actions[..|actions| - 1]);
      StepKeepsLinear(w, t, Run(w, Start(t), actions[..|actions| - 1]), actions[|actions| - 1]);
    }
  }

  // The results seen so far are a prefix of the serial ones.
  lemma EventsAreSerial(w: World, t: TokenState, actions: seq<Action>)
    ensures var s := Run(w, Start(t), actions);
            s.events <= Serial(w, t, s.order).events
  {
    ClonesLinearize(w, t, actions);
  }

  // ------------------------------------------------------------------------------------------
  // Calls do take place
  // ------------------------------------------------------------------------------------------

  lemma {:induction false} StepsMore(w: World, pc: Pc, t: TokenState, n: nat)
    ensures var (pc', t') := Steps(w, pc, t, n);
            Steps(w, pc, t, n + 1) == Advance(w, pc', t')
    decreases n
  {
    if n > 0 {
      var (pc', t') := Advance(w, pc, t);
      StepsMore(w, pc', t', n - 1);
    }
  }

  // The processes other than p, the lock, the order and the events are what they were; p has
  // come to `pc` and the token to `t`.
  ghost predicate OnlyMoved(s: Sys, u: Sys, p: nat, pc: Pc, t: TokenState) {
    && u.holder == s.holder && u.order == s.order && u.events == s.events
    && u.token == t && PcOf(u, p) == pc
    && forall q: nat :: q != p ==> PcOf(u, q) == PcOf(s, q)
  }

  function Going(p: nat, n: nat): (actions: seq<Action>)
    ensures |actions| == n && forall k :: 0 <= k < n ==> actions[k] == Go(p)
  {
    seq(n, _ => Go(p))
  }

  lemma {:induction false} GoOn(w: World, s: Sys, p: nat, n: nat)
    ensures var (pc, t) := Steps(w, PcOf(s, p), s.token, n);
            OnlyMoved(s, Run(w, s, Going(p, n)), p, pc, t)
    decreases n
  {
    if n > 0 {
      GoOn(w, s, p, n - 1);
      StepsMore(w, PcOf(s, p), s.token, n - 1);
      assert Going(p, n)[..n - 1] == Going(p, n - 1);
      var (pc, t) := Steps(w, PcOf(s, p), s.token, n - 1);
      var u := Run(w, s, Going(p, n - 1));
      assert Run(w, s, Going(p, n)) == Step(w, u, Go(p));
      OneGo(w, s, u, p, pc, t);
    }
  }

  lemma OneGo(w: World, s: Sys, u: Sys, p: nat, pc: Pc, t: TokenState)
    ensures var (pc', t') := Advance(w, pc, t);
            OnlyMoved(s, u, p, pc, t) ==> OnlyMoved(s, Step(w, u, Go(p)), p, pc', t')
  {
    var v := Step(w, u, Go(p));
    forall q: nat | q != p
      ensures PcOf(v, q) == PcOf(u, q)
    {
    }
  }

  // The three phases of a call, one after the other.
  lemma RunCall(w: World, s: Sys, p: nat, job: Job, n: nat)
    ensures var u := Run(w, Step(w, s, Begin(p, job)), Going(p, n));
            Run(w, s, [Begin(p, job)] + Going(p, n) + [Leave(p)]) == Step(w, u, Leave(p))
  {
    var a := [Begin(p, job)] + Going(p, n);
    RunAfter(w, s, Begin(p, job), Going(p, n));
    assert (a + [Leave(p)])[..|a|] == a;
  }

  lemma {:induction false} RunAfter(w: World, s: Sys, first: Action, rest: seq<Action>)
    ensures Run(w, s, [first] + rest) == Run(w, Step(w, s, first), rest)
    decreases |rest|
  {
    if rest == [] {
      assert [first] + rest == [first] && [first][..0] == [];
    } else {
      RunAfter(w, s, first, rest[..|rest| - 1]);
      assert ([first] + rest)[..|rest|] == [first] + rest[..|rest| - 1];
    }
  }

  lemma LeaveEnds(w: World, s: Sys, u: Sys, p: nat, job: Job, o: Outcome)
    requires s.holder.None? && PcOf(s, p) == Idle
    ensures OnlyMoved(Step(w, s, Begin(p, job)), u, p, Leaving(o.res, o.recorded), o.st) ==>
              Completed(s, Step(w, u, Leave(p)), p, job, o)
  {
    var v := Step(w, u, Leave(p));
    assert forall q: nat :: q != p ==> PcOf(v, q) == PcOf(u, q);
  }

  // From s to u process p has made one call, with this outcome, and nothing else has happened.
  ghost predicate Completed(s: Sys, u: Sys, p: nat, job: Job, o: Outcome) {
    && u.holder.None? && PcOf(u, p) == Idle && u.token == o.st
    && u.order == s.order + [job] && u.events == s.events + [Event(job, o.res, o.recorded)]
    && forall q: nat :: q != p ==> PcOf(u, q) == PcOf(s, q)
  }

  // A process that finds the lock free can run its call to the end. Then the lock is free again,
  // the token is as the whole call leaves it, and its verdict is the last event.
  lemma CallCompletes(w: World, s: Sys, p: nat, job: Job) returns (actions: seq<Action>)
    requires s.holder.None? && PcOf(s, p) == Idle
    ensures Completed(s, Run(w, s, actions), p, job, Atomic(w, job, s.token))
  {
    var n := CallEnds(w, Entered(job), s.token);
    var s' := Step(w, s, Begin(p, job));
    GoOn(w, s', p, n);
    RunCall(w, s, p, job, n);
    actions := [Begin(p, job)] + Going(p, n) + [Leave(p)];
    LeaveEnds(w, s, Run(w, s', Going(p, n)), p, job, Atomic(w, job, s.token));
  }
}
