/** The dwell of the relay itself. `Policy` waits a dwell after it has withdrawn its own command, but
    main/app.cpp:216 can mask a commanded decision behind its back. Here: exactly which masks let the
    relay come back too soon, and what a caller must see to for it never to. */
module RelayDwell {
  import opened Wrappers
  import opened Settings
  import opened PolicyModel
  import opened SharedState
  import opened ControlSystem
  import opened ControlProofs
  import opened ControlResults
  import opened ControlRuns
  import P = PolicyRuns
  import E = Epochs

  // ----- The policy -----

  /** The output is commanded, or has been withdrawn no earlier than `since`. */
  predicate Owed(p: State, since: int) { p.commanded || p.offSince >= since }

  /** A command that stands at `now` comes a dwell after `since`, and so will the next one. */
  predicate Kept(p: State, since: int, now: int) {
    if p.commanded then now - since >= p.gate.config.dwellS * 1000 else p.offSince >= since
  }

  predicate Waits(p: State, kept: bool, since: int, now: int) {
    since <= now && Owed(p, since) && (kept ==> Kept(p, since, now))
  }

  lemma CallKeepsConfig(p: State, e: P.Stamped)
    ensures var q := P.Apply(p, e);
            && (p.commanded && q.commanded ==> q.gate.config == p.gate.config)
            && (e.ev.Off? ==> !q.commanded)
  {
    P.StepKeepsTheGate(p, e);
  }

  lemma CallWaits(p: State, e: P.Stamped, kept: bool, since: int, now: int)
    requires Waits(p, kept, since, now) && now <= e.now
    ensures Waits(P.Apply(p, e), kept || e.ev.Off?, since, e.now)
  {
    P.ReleaseIsStamped(p, e);
    P.StepKeepsTheGate(p, e);
    CallKeepsConfig(p, e);
  }

  lemma {:induction false} ObservingWaits(p: State, obs: seq<(Observation, real)>, now: int, utc: int, ok: bool,
                                          kept: bool, since: int)
    requires Waits(p, kept, since, now)
    ensures Waits(ObserveAll(p, obs, now, utc, ok), kept, since, now)
    decreases |obs|
  {
    if obs != [] {
      CallWaits(p, P.At(now, P.Observe(obs[0].0, obs[0].1, utc, ok)), kept, since, now);
      ObservingWaits(p.Observe(obs[0].0, obs[0].1, now, utc, ok), obs[1..], now, utc, ok, kept, since);
    }
  }

  /** OFF and new settings, as the iteration hands them over. */
  function Handed(p: State, t: Taken, now: int): State {
    var p := if t.off then p.Off(t.epoch, now) else p;
    if t.apply then p.Configure(t.c, t.epoch, now).Restore(t.restored, t.source) else p
  }

  lemma HandedWaits(p: State, t: Taken, n: int, kept: bool, since: int, now: int)
    requires Waits(p, kept, since, now) && now <= n
    ensures Waits(Handed(p, t, n), kept || t.off, since, n)
  {
    var k, p1 := kept || t.off, if t.off then p.Off(t.epoch, n) else p;
    CallWaits(p, P.At(n, P.Off(t.epoch)), kept, since, now);
    CallWaits(p1, P.At(n, P.Configure(t.c, t.epoch)), k, since, n);
    CallWaits(p1.Configure(t.c, t.epoch, n), P.At(n, P.Restore(t.restored, t.source)), k, since, n);
  }

  /** A timed request, a clock jump and a fault. */
  function Stirred(p: State, t: Taken, env: Inputs, fault: bool): State {
    var p := if t.override && t.timedEpoch == t.epoch then p.TimedOn(t.seconds, env.now).0 else p;
    var p := if env.jumped then p.ClockJump() else p;
    if fault then p.Fault(env.now) else p
  }

  lemma StirredWaits(p: State, t: Taken, env: Inputs, fault: bool, kept: bool, since: int)
    requires Waits(p, kept, since, env.now)
    ensures Waits(Stirred(p, t, env, fault), kept, since, env.now)
  {
    var n, p3 := env.now, if t.override && t.timedEpoch == t.epoch then p.TimedOn(t.seconds, env.now).0 else p;
    CallWaits(p, P.At(n, P.TimedOn(t.seconds)), kept, since, n);
    CallWaits(p3, P.At(n, P.ClockJump), kept, since, n);
    CallWaits(if env.jumped then p3.ClockJump() else p3, P.At(n, P.Fault), kept, since, n);
  }

  lemma PassIs(p: State, t: Taken, env: Inputs, fault: bool)
    ensures Pass(p, t, env, fault)
            == ObserveAll(Stirred(Handed(p, t, env.now), t, env, fault), env.obs, env.now, env.utc, env.evidenceOk)
  {
  }

  lemma PassWaits(p: State, t: Taken, env: Inputs, fault: bool, kept: bool, since: int, now: int)
    requires Waits(p, kept, since, now) && now <= env.now
    ensures Waits(Pass(p, t, env, fault), kept || t.off, since, env.now)
  {
    var k, q := kept || t.off, Handed(p, t, env.now);
    HandedWaits(p, t, env.now, kept, since, now);
    StirredWaits(q, t, env, fault, k, since);
    ObservingWaits(Stirred(q, t, env, fault), env.obs, env.now, env.utc, env.evidenceOk, k, since);
    PassIs(p, t, env, fault);
  }

  lemma PassKeepsOff(p: State, t: Taken, env: Inputs, fault: bool)
    requires !t.apply && (t.off || p.gate.config.disabled)
    ensures Pass(p, t, env, fault).gate.config.disabled
  {
    var q := Handed(p, t, env.now);
    assert q.gate.config.disabled;
    RestOfPass(q, t, env, fault);
    var x := Stirred(q, t, env, fault);
    ObservingKeepsSettings(x, env.obs, env.now, env.utc, env.evidenceOk);
    PassIs(p, t, env, fault);
  }

  // ----- One step -----

  predicate MayCommand(g: Gate) {
    g.configured && !g.fault && g.config.commissioned && !g.config.disabled && !g.config.dryRun
  }

  lemma TickMayCommand(p: State, now: int, ready: bool, inhibited: bool)
    ensures p.Tick(now, ready, inhibited).1.commanded ==> MayCommand(p.gate)
  {
  }

  /** What the control loop keeps of its policy, its decision and the relay; `now` is the time of the
      last iteration that has reached its policy. */
  predicate Sound(s: Sys, now: int) {
    && (s.pc.Deciding? ==> s.pc.d.commanded == s.policy.commanded)
    && (s.gpio ==> Owed(s.policy, now) && (!s.pc.Deciding? ==> s.policy.commanded))
    && (s.policy.commanded ==> MayCommand(s.policy.gate))
    && (s.Snap().inhibited && !s.shared.forcedOff ==>
          if s.pc.Between? then !s.pc.t.apply && (s.pc.t.off || s.policy.gate.config.disabled)
          else s.policy.gate.config.disabled)
  }

  /** The relay, off since `since`, will not come back before a dwell has passed: the policy knows, or
      is about to be told by an OFF. */
  predicate Quiet(s: Sys, since: int, now: int) {
    Waits(s.policy, !s.shared.forcedOff && !(s.pc.Between? && s.pc.t.off), since, now)
  }

  predicate Reads(s: Sys, l: Label) { l.Decide? && s.pc.Between? }

  function After(s: Sys, l: Label, now: int): int { if Reads(s, l) then l.env.now else now }

  lemma DecideIs(s: Sys, env: Inputs)
    requires s.pc.Between?
    ensures var p := Pass(s.policy, s.pc.t, env, env.sawFault && s.faulted);
            DecideStep(s, env).policy
            == P.Apply(p, P.At(env.now, P.Tick(CommitReady(s.Snap(), p.gate.generation), env.busy)))
  {
  }

  lemma DecideWaits(s: Sys, env: Inputs, kept: bool, since: int, now: int)
    requires s.pc.Between? && now <= env.now && Waits(s.policy, kept, since, now)
    ensures Waits(DecideStep(s, env).policy, kept || s.pc.t.off, since, env.now)
  {
    DecideIs(s, env);
    PassThenTickWaits(s.policy, s.pc.t, env, env.sawFault && s.faulted, s.Snap(), kept, since, now);
  }

  lemma PassThenTickWaits(p: State, t: Taken, env: Inputs, fault: bool, snap: Snapshot, kept: bool, since: int, now: int)
    requires Waits(p, kept, since, now) && now <= env.now
    ensures var q := Pass(p, t, env, fault);
            var tick := P.At(env.now, P.Tick(CommitReady(snap, q.gate.generation), env.busy));
            Waits(P.Apply(q, tick), kept || t.off, since, env.now)
  {
    var q := Pass(p, t, env, fault);
    PassWaits(p, t, env, fault, kept, since, now);
    CallWaits(q, P.At(env.now, P.Tick(CommitReady(snap, q.gate.generation), env.busy)), kept || t.off, since, env.now);
  }

  lemma DecideSound(s: Sys, env: Inputs, now: int)
    requires s.pc.Between? && now <= env.now && Sound(s, now)
    ensures Sound(DecideStep(s, env), env.now)
  {
    var fault := env.sawFault && s.faulted;
    var p := Pass(s.policy, s.pc.t, env, fault);
    TickCommands(p, env.now, CommitReady(s.Snap(), p.gate.generation), env.busy);
    TickMayCommand(p, env.now, CommitReady(s.Snap(), p.gate.generation), env.busy);
    if s.gpio {
      DecideWaits(s, env, false, env.now, env.now);
    }
    if s.Snap().inhibited && !s.shared.forcedOff {
      PassKeepsOff(s.policy, s.pc.t, env, fault);
    }
  }

  lemma StepSound(s: Sys, l: Label, now: int)
    requires Inv(s) && Sound(s, now) && !l.Crash? && now <= After(s, l, now)
    ensures Sound(Next(s, l), After(s, l, now))
  {
    if Reads(s, l) {
      DecideSound(s, l.env, now);
    } else if IsLoop(l) {
      LoopSound(s, l, now);
    } else {
      WorkLeavesLoop(s, l);
    }
  }

  lemma LoopSound(s: Sys, l: Label, now: int)
    requires Sound(s, now) && !l.Crash? && IsLoop(l) && !Reads(s, l)
    ensures Sound(Next(s, l), now)
  {
  }

  lemma StepQuiet(s: Sys, l: Label, since: int, now: int)
    requires Quiet(s, since, now) && !l.Crash? && now <= After(s, l, now)
    ensures Quiet(Next(s, l), since, After(s, l, now))
  {
    if Reads(s, l) {
      DecideWaits(s, l.env, !s.shared.forcedOff && !s.pc.t.off, since, now);
    } else if IsLoop(l) {
      LoopQuiet(s, l, since, now);
    } else {
      WorkLeavesLoop(s, l);
    }
  }

  lemma LoopQuiet(s: Sys, l: Label, since: int, now: int)
    requires Quiet(s, since, now) && !l.Crash? && IsLoop(l) && !Reads(s, l)
    ensures Quiet(Next(s, l), since, now)
  {
  }

  // ----- Falls and rises -----

  /** The publication withdraws the relay though its decision commands it, and `firmware_busy` is the
      only reason: the mask that the policy does not learn of. */
  predicate MaskedByBusy(s: Sys, l: Label) {
    && l.Publish? && l.busy && l.gpioOk && s.pc.Deciding? && s.pc.d.commanded
    && !s.faulted && !s.provisioning && !s.Snap().inhibited && s.shared.Matches(s.policy.gate.generation)
  }

  /** The relay stays off until the next boot. */
  predicate Dead(s: Sys) { !s.gpio && (s.faulted || s.provisioning) }

  lemma StepDead(s: Sys, l: Label)
    requires Dead(s) && !l.Crash?
    ensures Dead(Next(s, l))
  {
    if !IsLoop(l) {
      WorkLeavesLoop(s, l);
    }
  }

  lemma OnlyPublishMovesRelay(s: Sys, l: Label)
    requires !l.Crash? && Next(s, l).gpio != s.gpio
    ensures l.Publish? && s.pc.Deciding?
  {
    if !IsLoop(l) {
      WorkLeavesLoop(s, l);
    }
  }

  /** A decision that commands ON is published: ON, or masked by an update alone, or the relay is off
      for a reason that lasts or that the policy will be told. */
  lemma CommandedIsPublished(s: Sys, l: Label, since: int, now: int)
    requires Inv(s) && Sound(s, now) && since <= now && l.Publish? && s.pc.Deciding? && s.pc.d.commanded
    ensures Next(s, l).gpio || MaskedByBusy(s, l) || Dead(Next(s, l)) || Quiet(Next(s, l), since, now)
  {
  }

  /** The relay falls: masked by an update alone, or dead, or quiet from now on. */
  lemma Fall(s: Sys, l: Label, now: int)
    requires Inv(s) && Sound(s, now) && !l.Crash? && s.gpio && !Next(s, l).gpio
    ensures After(s, l, now) == now && Owed(Next(s, l).policy, now)
    ensures MaskedByBusy(s, l) || Dead(Next(s, l)) || Quiet(Next(s, l), now, now)
  {
    OnlyPublishMovesRelay(s, l);
    if s.pc.d.commanded {
      CommandedIsPublished(s, l, now, now);
    }
  }

  lemma Rise(s: Sys, l: Label, since: int, now: int)
    requires Inv(s) && Sound(s, now) && !l.Crash? && !s.gpio && Next(s, l).gpio
    ensures After(s, l, now) == now && s.policy.commanded && s.pc.Deciding? && !Dead(s)
    ensures Quiet(s, since, now) ==> now - since >= s.policy.gate.config.dwellS * 1000
  {
    OnlyPublishMovesRelay(s, l);
  }

  lemma OwedStays(s: Sys, l: Label, since: int, now: int)
    requires Owed(s.policy, since) && since <= now && !l.Crash? && now <= After(s, l, now)
    ensures Owed(Next(s, l).policy, since)
  {
    if Reads(s, l) {
      DecideWaits(s, l.env, false, since, now);
    } else if IsLoop(l) {
      assert Next(s, l).policy == s.policy;
    } else {
      WorkLeavesLoop(s, l);
    }
  }

  // ----- Whole boots -----

  /** The state a boot starts in, whatever is on disk. */
  predicate FreshBoot(s: Sys, now: int) {
    Inv(s) && s.pc == Top && !s.gpio && s.policy == Boot(now) && !s.shared.forcedOff
  }

  lemma EveryBootIsFresh(profile: Option<Config>, marked: bool, seed: nat, now: int, s: Sys)
    ensures FreshBoot(Init(profile, marked, seed, now), now)
    ensures Inv(s) ==> FreshBoot(CrashStep(s, seed, now), now)
  {
    InitOk(profile, marked, seed, now);
    if Inv(s) {
      CrashOk(s, seed, now);
    }
  }

  /** `Run`, looked into only where a proof says so. */
  ghost predicate Reaches(s0: Sys, ls: seq<Label>, s: Sys) {
    forall b {:trigger Look(b)} :: Look(b) ==> s == Run(s0, ls)
  }

  /** One boot: its first state, at `start`, and its steps. */
  datatype Trace = Trace(s0: Sys, start: int, ls: seq<Label>) {
    /** The state before step `k`. */
    ghost function S(k: nat): (s: Sys)
      requires k <= |ls|
      ensures Reaches(s0, ls[..k], s)
    {
      assert Reaches(s0, ls[..k], Run(s0, ls[..k]));
      var s :| Reaches(s0, ls[..k], s);
      s
    }

    /** The time of the last iteration that has reached its policy before step `k`. */
    ghost function T(k: nat): int
      requires k <= |ls|
    {
      if k == 0 then start else After(S(k - 1), ls[k - 1], T(k - 1))
    }

    ghost predicate OkAt(k: nat)
      requires k < |ls|
    {
      !ls[k].Crash? && T(k) <= T(k + 1)
    }

    /** No crash, and the loop reads a clock that does not go back. */
    ghost predicate Ok() { FreshBoot(s0, start) && forall k: nat | k < |ls| :: OkAt(k) }

    ghost predicate Falls(k: nat)
      requires k < |ls|
    {
      S(k).gpio && !S(k + 1).gpio
    }

    ghost predicate Rises(k: nat)
      requires k < |ls|
    {
      !S(k).gpio && S(k + 1).gpio
    }

    /** The dwell in force, in milliseconds. */
    ghost function Dwell(k: nat): int
      requires k <= |ls|
    {
      S(k).policy.gate.config.dwellS * 1000
    }
  }

  lemma StateAt(tr: Trace, k: nat)
    requires k <= |tr.ls|
    ensures tr.S(k) == Run(tr.s0, tr.ls[..k])
  {
    assert Look(true);
  }

  lemma RunAt(s: Sys, ls: seq<Label>, k: nat)
    requires k < |ls|
    ensures Run(s, ls[..k + 1]) == Next(Run(s, ls[..k]), ls[k])
  {
    RunOne(s, ls[..k], ls[k]);
    assert ls[..k + 1] == ls[..k] + [ls[k]];
  }

  lemma StepAt(tr: Trace, k: nat)
    requires tr.Ok() && k < |tr.ls|
    ensures tr.S(k + 1) == Next(tr.S(k), tr.ls[k]) && !tr.ls[k].Crash?
    ensures tr.T(k) <= tr.T(k + 1) == After(tr.S(k), tr.ls[k], tr.T(k))
  {
    StateAt(tr, k);
    StateAt(tr, k + 1);
    RunAt(tr.s0, tr.ls, k);
    assert tr.OkAt(k);
  }

  lemma {:induction false} SoundAt(tr: Trace, k: nat)
    requires tr.Ok() && k <= |tr.ls|
    ensures Inv(tr.S(k)) && Sound(tr.S(k), tr.T(k)) && tr.start <= tr.T(k)
  {
    if k == 0 {
      StateAt(tr, 0);
    } else {
      SoundAt(tr, k - 1);
      StepAt(tr, k - 1);
      NextOk(tr.S(k - 1), tr.ls[k - 1]);
      StepSound(tr.S(k - 1), tr.ls[k - 1], tr.T(k - 1));
    }
  }

  lemma {:induction false} QuietFrom(tr: Trace, since: int, j: nat, k: nat)
    requires tr.Ok() && j <= k <= |tr.ls| && Quiet(tr.S(j), since, tr.T(j))
    ensures Quiet(tr.S(k), since, tr.T(k))
  {
    if j < k {
      QuietFrom(tr, since, j, k - 1);
      StepAt(tr, k - 1);
      StepQuiet(tr.S(k - 1), tr.ls[k - 1], since, tr.T(k - 1));
    }
  }

  lemma {:induction false} DeadFrom(tr: Trace, j: nat, k: nat)
    requires tr.Ok() && j <= k <= |tr.ls| && Dead(tr.S(j))
    ensures Dead(tr.S(k))
  {
    if j < k {
      DeadFrom(tr, j, k - 1);
      StepAt(tr, k - 1);
      StepDead(tr.S(k - 1), tr.ls[k - 1]);
    }
  }

  lemma {:induction false} OwedFrom(tr: Trace, since: int, j: nat, k: nat)
    requires tr.Ok() && j <= k <= |tr.ls| && Owed(tr.S(j).policy, since) && since <= tr.T(j)
    ensures Owed(tr.S(k).policy, since) && since <= tr.T(k)
  {
    if j < k {
      OwedFrom(tr, since, j, k - 1);
      StepAt(tr, k - 1);
      OwedStays(tr.S(k - 1), tr.ls[k - 1], since, tr.T(k - 1));
    }
  }

  /** What a rise at `r` says of any earlier step at which the relay was quiet or dead. */
  lemma RiseAfter(tr: Trace, since: int, k: nat, r: nat)
    requires tr.Ok() && k <= r < |tr.ls| && tr.Rises(r)
    ensures !Dead(tr.S(k)) && tr.S(r).policy.commanded
    ensures Quiet(tr.S(k), since, tr.T(k)) ==> tr.T(r) - since >= tr.Dwell(r)
  {
    SoundAt(tr, r);
    StepAt(tr, r);
    Rise(tr.S(r), tr.ls[r], since, tr.T(r));
    if Dead(tr.S(k)) {
      DeadFrom(tr, k, r);
    }
    if Quiet(tr.S(k), since, tr.T(k)) {
      QuietFrom(tr, since, k, r);
    }
  }

  lemma HeldBetween(tr: Trace, since: int, j: nat, k: nat, r: nat)
    requires tr.Ok() && j <= k <= r < |tr.ls| && Owed(tr.S(j).policy, since) && since <= tr.T(j)
    requires tr.Rises(r) && tr.T(r) - since < tr.Dwell(r)
    ensures tr.S(k).policy.commanded
  {
    OwedFrom(tr, since, j, k);
    RiseAfter(tr, since, k, r);
  }

  lemma FallAt(tr: Trace, f: nat)
    requires tr.Ok() && f < |tr.ls| && tr.Falls(f)
    ensures tr.T(f + 1) == tr.T(f) && Owed(tr.S(f + 1).policy, tr.T(f))
    ensures MaskedByBusy(tr.S(f), tr.ls[f]) || Dead(tr.S(f + 1)) || Quiet(tr.S(f + 1), tr.T(f), tr.T(f + 1))
  {
    SoundAt(tr, f);
    StepAt(tr, f);
    Fall(tr.S(f), tr.ls[f], tr.T(f));
  }

  lemma MaskedBetween(tr: Trace, since: int, k: nat, r: nat)
    requires tr.Ok() && k < r < |tr.ls| && since <= tr.T(k) && tr.S(k).policy.commanded && !tr.S(k + 1).gpio
    requires tr.ls[k].Publish? && tr.S(k).pc.Deciding?
    requires tr.Rises(r) && tr.T(r) - since < tr.Dwell(r)
    ensures MaskedByBusy(tr.S(k), tr.ls[k])
  {
    SoundAt(tr, k);
    StepAt(tr, k);
    CommandedIsPublished(tr.S(k), tr.ls[k], since, tr.T(k));
    RiseAfter(tr, since, k + 1, r);
  }

  /** A rise too soon after a fall: the fall was a mask by an update alone, so was every publication in
      between, and every decision since has commanded ON. */
  lemma TooSoon(tr: Trace, f: nat, r: nat)
    requires tr.Ok() && f < r < |tr.ls| && tr.Falls(f) && tr.Rises(r) && forall k | f < k <= r :: !tr.S(k).gpio
    requires tr.T(r) - tr.T(f) < tr.Dwell(r)
    ensures MaskedByBusy(tr.S(f), tr.ls[f])
    ensures forall k | f < k <= r :: tr.S(k).policy.commanded
    ensures forall k | f < k < r && tr.ls[k].Publish? && tr.S(k).pc.Deciding? :: MaskedByBusy(tr.S(k), tr.ls[k])
  {
    FallAt(tr, f);
    RiseAfter(tr, tr.T(f), f + 1, r);
    forall k | f < k <= r
      ensures tr.S(k).policy.commanded
    {
      HeldBetween(tr, tr.T(f), f + 1, k, r);
    }
    forall k | f < k < r && tr.ls[k].Publish? && tr.S(k).pc.Deciding?
      ensures MaskedByBusy(tr.S(k), tr.ls[k])
    {
      OwedFrom(tr, tr.T(f), f + 1, k);
      MaskedBetween(tr, tr.T(f), k, r);
    }
  }

  // ----- When the dwell is kept -----

  /** The relay waits a dwell after boot, whatever masks it. */
  lemma RelayWaitsAfterBoot(tr: Trace, r: nat)
    requires tr.Ok() && r < |tr.ls| && tr.Rises(r)
    ensures tr.T(r) - tr.start >= tr.Dwell(r) >= 30000
  {
    StateAt(tr, 0);
    RiseAfter(tr, tr.start, 0, r);
    SoundAt(tr, r);
    StepAt(tr, r);
    Rise(tr.S(r), tr.ls[r], tr.start, tr.T(r));
  }

  /** Step `m` is the first iteration after step `k` to reach its policy. */
  ghost predicate NextRead(tr: Trace, k: nat, m: nat) {
    k < m < |tr.ls| && Reads(tr.S(m), tr.ls[m]) && forall j | k < j < m :: !Reads(tr.S(j), tr.ls[j])
  }

  /** The iteration learns of an update, or of an OFF. */
  predicate Sees(s: Sys, l: Label) { Reads(s, l) && (l.env.busy || s.pc.t.off) }

  /** Whenever an update alone masks a commanded decision, the next iteration sees the update, or an
      OFF. */
  ghost predicate UpdatesAreSeen(tr: Trace) {
    forall k: nat, m: nat | NextRead(tr, k, m) && MaskedByBusy(tr.S(k), tr.ls[k]) :: Sees(tr.S(m), tr.ls[m])
  }

  lemma {:induction false} TimePasses(tr: Trace, j: nat, k: nat)
    requires tr.Ok() && j <= k <= |tr.ls|
    ensures tr.T(j) <= tr.T(k)
  {
    if j < k {
      TimePasses(tr, j, k - 1);
      assert tr.OkAt(k - 1);
    }
  }

  lemma {:induction false} LastFall(tr: Trace, f: nat, r: nat) returns (m: nat)
    requires f < r <= |tr.ls| && tr.Falls(f) && !tr.S(r).gpio
    ensures f <= m < r && tr.Falls(m) && forall k | m < k <= r :: !tr.S(k).gpio
  {
    if tr.S(r - 1).gpio {
      m := r - 1;
    } else {
      m := LastFall(tr, f, r - 1);
    }
  }

  lemma {:induction false} ReadBeforeDeciding(tr: Trace, k: nat, r: nat) returns (m: nat)
    requires tr.Ok() && k < r <= |tr.ls| && !tr.S(k + 1).pc.Deciding? && tr.S(r).pc.Deciding?
    ensures m < r && NextRead(tr, k, m)
  {
    StepAt(tr, r - 1);
    if tr.S(r - 1).pc.Deciding? {
      m := ReadBeforeDeciding(tr, k, r - 1);
    } else {
      PcMoves(tr.S(r - 1), tr.ls[r - 1]);
      m := FirstRead(tr, k, r - 1);
    }
  }

  lemma PcMoves(s: Sys, l: Label)
    requires !s.pc.Deciding? && Next(s, l).pc.Deciding?
    ensures Reads(s, l)
  {
    if !IsLoop(l) {
      WorkLeavesLoop(s, l);
    }
  }

  lemma {:induction false} FirstRead(tr: Trace, k: nat, n: nat) returns (m: nat)
    requires k < n < |tr.ls| && Reads(tr.S(n), tr.ls[n])
    ensures m <= n && NextRead(tr, k, m)
    decreases n
  {
    if j :| k < j < n && Reads(tr.S(j), tr.ls[j]) {
      m := FirstRead(tr, k, j);
    } else {
      m := n;
    }
  }

  /** A decision that sees an update, or an OFF, withdraws the command. */
  lemma SeenIsQuiet(s: Sys, l: Label, since: int, now: int)
    requires Sees(s, l) && Owed(s.policy, since) && since <= now <= l.env.now
    ensures Quiet(Next(s, l), since, l.env.now)
  {
    DecideWaits(s, l.env, false, since, now);
    if l.env.busy {
      var p := Pass(s.policy, s.pc.t, l.env, l.env.sawFault && s.faulted);
      BusyWithdraws(p, l.env.now, CommitReady(s.Snap(), p.gate.generation));
    }
  }

  lemma BusyWithdraws(p: State, now: int, ready: bool)
    ensures !p.Tick(now, ready, true).0.commanded
  {
  }

  lemma SeenKeepsDwell(tr: Trace, since: int, j: nat, n: nat, r: nat)
    requires tr.Ok() && j <= n < r < |tr.ls| && Owed(tr.S(j).policy, since) && since <= tr.T(j)
    requires Sees(tr.S(n), tr.ls[n]) && tr.Rises(r)
    ensures tr.T(r) - since >= tr.Dwell(r)
  {
    OwedFrom(tr, since, j, n);
    StepAt(tr, n);
    SeenIsQuiet(tr.S(n), tr.ls[n], since, tr.T(n));
    RiseAfter(tr, since, n + 1, r);
  }

  /** Every rise has its own reading after an earlier publication. */
  lemma RiseIsRead(tr: Trace, k: nat, r: nat) returns (n: nat)
    requires tr.Ok() && k < r < |tr.ls| && tr.Rises(r) && tr.Falls(k)
    ensures n < r && NextRead(tr, k, n)
  {
    StepAt(tr, k);
    StepAt(tr, r);
    OnlyPublishMovesRelay(tr.S(k), tr.ls[k]);
    OnlyPublishMovesRelay(tr.S(r), tr.ls[r]);
    n := ReadBeforeDeciding(tr, k, r);
  }

  /** If the policy gets to see every update that masks it, each ON comes a dwell after every earlier
      OFF of the relay in this boot. */
  lemma RelayKeepsDwell(tr: Trace, f: nat, r: nat)
    requires tr.Ok() && UpdatesAreSeen(tr) && f < r < |tr.ls| && tr.Falls(f) && tr.Rises(r)
    ensures tr.T(r) - tr.T(f) >= tr.Dwell(r)
  {
    var m := LastFall(tr, f, r);
    TimePasses(tr, f, m);
    if tr.T(r) - tr.T(m) < tr.Dwell(r) {
      TooSoon(tr, m, r);
      FallAt(tr, m);
      var n := RiseIsRead(tr, m, r);
      SeenKeepsDwell(tr, tr.T(m), m + 1, n, r);
    }
  }

  // ----- When it is not -----

  /** A controller with nothing in the way of ON but its decision. */
  predicate Calm(s: Sys) {
    && Inv(s) && s.pc.Top? && !s.faulted && !s.provisioning && !s.Snap().inhibited && MayCommand(s.policy.gate)
  }

  predicate MayRise(p: State, now: int) { p.commanded || now - p.offSince >= p.gate.config.dwellS * 1000 }

  function Quick(now: int): Inputs { Inputs(now, 0, [], false, false, false, false) }

  /** A timed request for one second. */
  function Ask(e: nat): Label { Label.Timed(1, e, false) }

  /** Such a request and the iteration that takes it. */
  function Asked(e: nat, now: int, busy: bool): seq<Label> {
    [Ask(e), Take, Decide(Quick(now)), Publish(busy, true)]
  }

  lemma TimedPass(p: State, t: Taken, now: int)
    requires !t.off && !t.apply && t.override && t.timedEpoch == t.epoch && t.seconds == 1 && MayCommand(p.gate)
    ensures Pass(p, t, Quick(now), false) == p.Expire(now).(override := now + 1000)
  {
  }

  lemma TimedTick(p: State, now: int, ready: bool)
    requires MayCommand(p.gate) && MayRise(p, now)
    ensures var (q, d) := p.Expire(now).(override := now + 1000).Tick(now, ready, false);
            d.commanded && q.commanded && q.gate == p.gate
  {
  }

  lemma RequestTaken(s: Sys)
    requires Calm(s)
    ensures var t := Next(Next(s, Ask(s.shared.epoch)), Take);
            && t.pc.Between? && !t.pc.t.off && !t.pc.t.apply && t.pc.t.override
            && t.pc.t.timedEpoch == t.pc.t.epoch && t.pc.t.seconds == 1
            && t == s.(shared := t.shared, pc := t.pc) && t.shared.epoch == s.shared.epoch && t.Snap() == s.Snap()
  {
  }

  lemma RequestDecided(s: Sys, now: int)
    requires s.pc.Between? && !s.pc.t.off && !s.pc.t.apply && s.pc.t.override
    requires s.pc.t.timedEpoch == s.pc.t.epoch && s.pc.t.seconds == 1
    requires MayCommand(s.policy.gate) && MayRise(s.policy, now)
    ensures var t := Next(s, Decide(Quick(now)));
            && t.pc.Deciding? && t.pc.d.commanded && t.policy.commanded && t.policy.gate == s.policy.gate
            && t == s.(policy := t.policy, pc := t.pc)
  {
    TimedPass(s.policy, s.pc.t, now);
    TimedTick(s.policy, now, CommitReady(s.Snap(), s.policy.gate.generation));
  }

  /** The request puts the relay ON, or is masked if an update begins before it is published. */
  lemma Round(s: Sys, now: int, busy: bool) returns (s1: Sys, s2: Sys, s3: Sys, s4: Sys)
    requires Calm(s) && MayRise(s.policy, now)
    ensures s1 == Next(s, Ask(s.shared.epoch)) && s2 == Next(s1, Take)
    ensures s3 == Next(s2, Decide(Quick(now))) && s4 == Next(s3, Publish(busy, true))
    ensures s1.pc.Top? && s2.pc.Between? && s3.pc.Deciding?
    ensures s1.gpio == s2.gpio == s3.gpio == s.gpio && s4.gpio == !busy
    ensures Calm(s4) && s4.policy.commanded && s3.policy.gate == s4.policy.gate == s.policy.gate
    ensures busy ==> MaskedByBusy(s3, Publish(busy, true))
  {
    var e := s.shared.epoch;
    s1, s2 := Next(s, Ask(e)), Next(Next(s, Ask(e)), Take);
    s3 := Next(s2, Decide(Quick(now)));
    s4 := Next(s3, Publish(busy, true));
    RequestTaken(s);
    RequestDecided(s2, now);
    NextOk(s, Ask(e));
    NextOk(s1, Take);
    NextOk(s2, Decide(Quick(now)));
    NextOk(s3, Publish(busy, true));
  }

  lemma {:induction false} Prefix(tr: Trace, more: seq<Label>, k: nat)
    requires k <= |tr.ls|
    ensures var u := tr.(ls := tr.ls + more); u.S(k) == tr.S(k) && u.T(k) == tr.T(k)
  {
    assert (tr.ls + more)[..k] == tr.ls[..k];
    StateAt(tr, k);
    StateAt(tr.(ls := tr.ls + more), k);
    if k > 0 {
      Prefix(tr, more, k - 1);
    }
  }

  lemma Grow(tr: Trace, l: Label)
    requires var n := |tr.ls|; tr.Ok() && !l.Crash? && tr.T(n) <= After(tr.S(n), l, tr.T(n))
    ensures tr.(ls := tr.ls + [l]).Ok()
  {
    var u := tr.(ls := tr.ls + [l]);
    forall k: nat | k < |u.ls|
      ensures u.OkAt(k)
    {
      Prefix(tr, [l], k);
      if k < |tr.ls| {
        Prefix(tr, [l], k + 1);
        assert tr.OkAt(k);
      }
    }
  }

  lemma {:induction false} GrowAll(tr: Trace, more: seq<Label>, now: int)
    requires tr.Ok() && tr.T(|tr.ls|) <= now
    requires forall l | l in more :: !l.Crash? && (l.Decide? ==> l.env.now == now)
    ensures var u := tr.(ls := tr.ls + more); u.Ok() && u.T(|u.ls|) <= now
  {
    if more == [] {
      assert tr.ls + more == tr.ls;
    } else {
      var init, l := more[..|more| - 1], more[|more| - 1];
      GrowAll(tr, init, now);
      var u := tr.(ls := tr.ls + init);
      Grow(u, l);
      LastApart(tr.ls, more);
      Prefix(u, [l], |u.ls|);
    }
  }

  ghost function Again(tr: Trace, now: int, busy: bool): Trace {
    tr.(ls := tr.ls + Asked(tr.S(|tr.ls|).shared.epoch, now, busy))
  }

  lemma FourMore<T>(xs: seq<T>, a: T, b: T, c: T, d: T)
    ensures var ys, n := xs + [a, b, c, d], |xs|;
            |ys| == n + 4 && ys[n] == a && ys[n + 1] == b && ys[n + 2] == c && ys[n + 3] == d
  {
  }

  lemma AgainIs(tr: Trace, now: int, busy: bool)
    requires var n := |tr.ls|; tr.Ok() && tr.T(n) <= now
    ensures var u, n, e := Again(tr, now, busy), |tr.ls|, tr.S(|tr.ls|).shared.epoch;
            && u.Ok() && u.S(n) == tr.S(n) && u.T(n) == tr.T(n) && |u.ls| == n + 4
            && u.ls[n] == Ask(e) && u.ls[n + 1] == Take && u.ls[n + 2] == Decide(Quick(now))
            && u.ls[n + 3] == Publish(busy, true)
  {
    var n, e := |tr.ls|, tr.S(|tr.ls|).shared.epoch;
    GrowAll(tr, Asked(e, now, busy), now);
    Prefix(tr, Asked(e, now, busy), n);
    FourMore(tr.ls, Ask(e), Take, Decide(Quick(now)), Publish(busy, true));
  }

  lemma RoundGrows(tr: Trace, now: int, busy: bool)
    requires var n := |tr.ls|; tr.Ok() && tr.T(n) <= now
    ensures var u, n, e := Again(tr, now, busy), |tr.ls|, tr.S(|tr.ls|).shared.epoch;
            && u.Ok() && u.S(n) == tr.S(n) && |u.ls| == n + 4
            && u.S(n + 1) == Next(tr.S(n), Ask(e)) && u.S(n + 2) == Next(u.S(n + 1), Take)
            && u.S(n + 3) == Next(u.S(n + 2), Decide(Quick(now)))
            && u.S(n + 4) == Next(u.S(n + 3), Publish(busy, true))
            && u.T(n + 3) == After(u.S(n + 2), Decide(Quick(now)), u.T(n + 2)) && u.T(n + 4) == u.T(n + 3)
  {
    var u, n := Again(tr, now, busy), |tr.ls|;
    AgainIs(tr, now, busy);
    StepAt(u, n);
    StepAt(u, n + 1);
    StepAt(u, n + 2);
    StepAt(u, n + 3);
  }

  /** One more round of a boot. */
  lemma RoundAt(tr: Trace, now: int, busy: bool)
    requires var n := |tr.ls|; tr.Ok() && tr.T(n) <= now && Calm(tr.S(n)) && MayRise(tr.S(n).policy, now)
    ensures var u, n := Again(tr, now, busy), |tr.ls|;
            && u.Ok() && |u.ls| == n + 4 && u.T(n + 3) == u.T(n + 4) == now
            && u.S(n + 1).gpio == u.S(n + 2).gpio == u.S(n + 3).gpio == tr.S(n).gpio && u.S(n + 4).gpio == !busy
            && Calm(u.S(n + 4)) && u.S(n + 4).policy.commanded && u.Dwell(n + 3) == u.Dwell(n + 4) == tr.Dwell(n)
            && u.ls[n + 3] == Publish(busy, true) && (busy ==> MaskedByBusy(u.S(n + 3), u.ls[n + 3]))
  {
    RoundGrows(tr, now, busy);
    var s1, s2, s3, s4 := Round(tr.S(|tr.ls|), now, busy);
  }

  /** `u` continues the boot `tr`; there the relay, off since the last step of `tr`, is next ON within
      the dwell then in force. */
  ghost predicate BackTooSoon(tr: Trace, u: Trace)
    requires tr.ls != []
  {
    var f, r := |tr.ls| - 1, |u.ls| - 1;
    && u.Ok() && u.s0 == tr.s0 && u.start == tr.start && tr.ls <= u.ls && f < r && u.Rises(r)
    && (forall k | f < k <= r :: !u.S(k).gpio) && u.T(r) - u.T(f) < u.Dwell(r)
  }

  lemma MaskedIsCalm(s: Sys, l: Label, now: int)
    requires Inv(s) && Sound(s, now) && MaskedByBusy(s, l)
    ensures Calm(Next(s, l)) && Next(s, l).policy.commanded && !Next(s, l).gpio
  {
    NextOk(s, l);
  }

  lemma CalmAfterMask(tr: Trace, f: nat)
    requires tr.Ok() && f < |tr.ls| && MaskedByBusy(tr.S(f), tr.ls[f])
    ensures Calm(tr.S(f + 1)) && tr.S(f + 1).policy.commanded && !tr.S(f + 1).gpio && tr.T(f + 1) == tr.T(f)
    ensures tr.Dwell(f + 1) == tr.Dwell(f)
  {
    SoundAt(tr, f);
    StepAt(tr, f);
    MaskedIsCalm(tr.S(f), tr.ls[f], tr.T(f));
  }

  /** After a mask by an update alone the relay can come back after any time, however short. */
  lemma MaskLetsRelayBack(tr: Trace, gap: nat) returns (u: Trace)
    requires tr.Ok() && tr.ls != [] && MaskedByBusy(tr.S(|tr.ls| - 1), tr.ls[|tr.ls| - 1])
    ensures u.s0 == tr.s0 && u.start == tr.start && tr.ls <= u.ls && u.Ok() && |u.ls| == |tr.ls| + 4
    ensures var f, r := |tr.ls| - 1, |tr.ls| + 3;
            && u.S(f) == tr.S(f) && u.T(f) == tr.T(f) && u.Rises(r) && u.T(r) == u.T(f) + gap
            && !u.S(f + 1).gpio && !u.S(f + 2).gpio && !u.S(f + 3).gpio && !u.S(f + 4).gpio
            && u.Dwell(r) == tr.Dwell(f)
  {
    var f := |tr.ls| - 1;
    CalmAfterMask(tr, f);
    var now := tr.T(f) + gap;
    RoundAt(tr, now, false);
    u := Again(tr, now, false);
    Prefix(tr, Asked(tr.S(f + 1).shared.epoch, now, false), f);
    Prefix(tr, Asked(tr.S(f + 1).shared.epoch, now, false), f + 1);
  }

  lemma TooSoonIsMasked(tr: Trace, u: Trace)
    requires tr.Ok() && tr.ls != [] && tr.Falls(|tr.ls| - 1) && BackTooSoon(tr, u)
    ensures MaskedByBusy(tr.S(|tr.ls| - 1), tr.ls[|tr.ls| - 1])
  {
    var f, more := |tr.ls| - 1, u.ls[|tr.ls|..];
    assert u == tr.(ls := tr.ls + more);
    Prefix(tr, more, f);
    Prefix(tr, more, f + 1);
    TooSoon(u, f, |u.ls| - 1);
  }

  lemma MaskedIsTooSoon(tr: Trace) returns (u: Trace)
    requires tr.Ok() && tr.ls != [] && MaskedByBusy(tr.S(|tr.ls| - 1), tr.ls[|tr.ls| - 1])
    ensures BackTooSoon(tr, u)
  {
    u := MaskLetsRelayBack(tr, 0);
    RelayWaitsAfterBoot(u, |tr.ls| + 3);
  }

  /** The exact condition. When the relay falls, some continuation of the boot brings it back within the
      dwell if and only if the fall was an update alone masking a decision to command ON. */
  lemma BackTooSoonIff(tr: Trace)
    requires tr.Ok() && tr.ls != [] && tr.Falls(|tr.ls| - 1)
    ensures (exists u :: BackTooSoon(tr, u)) <==> MaskedByBusy(tr.S(|tr.ls| - 1), tr.ls[|tr.ls| - 1])
  {
    if u :| BackTooSoon(tr, u) {
      TooSoonIsMasked(tr, u);
    }
    if MaskedByBusy(tr.S(|tr.ls| - 1), tr.ls[|tr.ls| - 1]) {
      var u := MaskedIsTooSoon(tr);
    }
  }

  // ----- A boot in which it is not -----

  /** The first iteration after boot, which hands the policy its settings. */
  lemma SettingsTaken(c: Config)
    requires c.Valid() && c.commissioned && !c.disabled && !c.dryRun
    ensures var s := Next(Next(Next(Booted(c), Take), Decide(Quick(0))), Publish(false, true));
            && s.pc.Top? && !s.faulted && !s.provisioning && !s.Snap().inhibited && MayCommand(s.policy.gate)
            && s.policy.gate.config == c && !s.policy.commanded && s.policy.offSince == 0 && !s.gpio
  {
  }

  function FirstSteps(c: Config): Trace {
    Trace(Init(Some(c), false, 1, 0), 0, BOOT + [Take, Decide(Quick(0)), Publish(false, true)])
  }

  lemma Starts(c: Config)
    requires c.Valid() && c.commissioned && !c.disabled && !c.dryRun
    ensures var tr := FirstSteps(c);
            && tr.Ok() && |tr.ls| == 6 && tr.T(6) <= 0 && Calm(tr.S(6)) && tr.S(6).policy.gate.config == c
            && !tr.S(6).gpio && !tr.S(6).policy.commanded && tr.S(6).policy.offSince == 0
  {
    var s0, tr := Init(Some(c), false, 1, 0), FirstSteps(c);
    EveryBootIsFresh(Some(c), false, 1, 0, s0);
    GrowAll(Trace(s0, 0, []), tr.ls, 0);
    assert [] + tr.ls == tr.ls && tr.ls[..6] == tr.ls;
    RunThen(s0, BOOT, [Take, Decide(Quick(0)), Publish(false, true)]);
    BootGoes(c);
    ThreeSteps(Booted(c), Take, Decide(Quick(0)), Publish(false, true));
    SettingsTaken(c);
    RunOk(s0, tr.ls);
    StateAt(tr, 6);
  }

  lemma GoesOn(c: Config) returns (on: Trace)
    requires c.Valid() && c.commissioned && !c.disabled && !c.dryRun
    ensures on.s0 == Init(Some(c), false, 1, 0) && on.start == 0
    ensures on.Ok() && |on.ls| == 10 && Calm(on.S(10)) && on.S(10).policy.commanded
    ensures on.S(10).gpio && on.T(10) == c.dwellS * 1000 == on.Dwell(10)
  {
    Starts(c);
    RoundAt(FirstSteps(c), c.dwellS * 1000, false);
    on := Again(FirstSteps(c), c.dwellS * 1000, false);
  }

  lemma IsMasked(c: Config) returns (off: Trace)
    requires c.Valid() && c.commissioned && !c.disabled && !c.dryRun
    ensures off.s0 == Init(Some(c), false, 1, 0) && off.start == 0
    ensures off.Ok() && |off.ls| == 14 && MaskedByBusy(off.S(13), off.ls[13]) && off.S(13).gpio
    ensures off.Dwell(13) == c.dwellS * 1000
  {
    var on := GoesOn(c);
    RoundAt(on, c.dwellS * 1000 + 50, true);
    off := Again(on, c.dwellS * 1000 + 50, true);
  }

  /** A boot in which the relay falls at step 13 and is back at step 17, `gap` milliseconds later: for
      any gap, and for any settings under which the output may be commanded at all. */
  lemma RelayCanSkipDwell(c: Config, gap: nat) returns (tr: Trace)
    requires c.Valid() && c.commissioned && !c.disabled && !c.dryRun
    ensures tr.s0 == Init(Some(c), false, 1, 0) && tr.start == 0 && tr.Ok() && |tr.ls| == 18
    ensures tr.Falls(13) && tr.Rises(17) && tr.T(17) - tr.T(13) == gap && tr.Dwell(17) == c.dwellS * 1000 >= 30000
  {
    var off := IsMasked(c);
    tr := MaskLetsRelayBack(off, gap);
  }
}
