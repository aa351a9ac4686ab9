/** What can come between the storage worker's critical sections. `auto_storage_step` reads the
    published decision, `persist_auto_state` looks again and writes under the mutex, and
    `auto_commit_ack` reports what was asked for, not what was written, when all that is over. */
module LateAcks {
  import opened Wrappers
  import opened Settings
  import opened Errors
  import opened AutoJournals
  import opened PolicyModel
  import opened SharedState
  import opened ControlSystem
  import opened ControlProofs
  import opened ControlResults
  import opened ControlRuns

  /** The acknowledgement leaves the saved state that gates the output in agreement with the durable
      record exactly if: it is of an older generation, and they agreed before; or the request was kept,
      and the decision is still the one kept; or the record was emptied instead, and the acknowledgement
      is not taken for a decision all the same. */
  lemma LateAckIsCoherentIff(s: Sys)
    requires Inv(s) && s.worker.Acking? && Enabled(s)
    ensures var t, r := AckStep(s), s.worker.req;
            var still := s.Snap().decision.autoState == r.state;
            t.Snap().autoSaved == Load(t.disk.auto, true, t.Snap().config).state
            <==> if r.gen != s.shared.epoch then s.Told() else if s.worker.act == ToKeep then still
                 else !still || r.state == Unknown
  {
    AckOk(s);
    SavedIffTold(AckStep(s));
  }

  // ----- Parts of runs -----

  const DAWN := 1577836801

  /** Fix number `n` of this vehicle, `far` or at home, as good as a fix can be. */
  function FixNo(c: Config, gen: nat, n: nat, far: bool): (Observation, real) {
    (Observation(gen, n, c.vin, Location, Online, c.homeLat, c.homeLon, DAWN + n, c.Basis(), true),
     if far then c.disableM as real else 0.0)
  }

  function Sees(now: int, obs: seq<(Observation, real)>, n: nat): Inputs {
    Inputs(now, DAWN + n, obs, true, false, false, false)
  }

  /** One control iteration. */
  function Round(env: Inputs): seq<Label> { [Take, Decide(env), Publish(false, true)] }

  /** The iteration that sees fix `n`. */
  function Seeing(c: Config, gen: nat, n: nat, far: bool, now: int): seq<Label> {
    Round(Sees(now, [FixNo(c, gen, n, far)], n))
  }

  /** The worker up to its acknowledgement, with no failure. */
  const STORE := [AskStore, CheckStore, WriteStore(true, true, Committed)]

  /** The command AUTO, and the work it leaves to its writer. */
  function WriterSteps(e: nat): seq<Label> {
    [StartChange(e, true), ClearForChange(true, Committed), SaveChange(Committed), CheckChange, PublishChange]
  }

  /** A running controller with nothing pending, that has seen `n` fixes; `saved` is the state it
      believes durable, `on` whether the relay is. */
  predicate Steady(s: Sys, c: Config, gen: nat, n: nat, saved: AutoState, on: bool) {
    && Idle(s, c, gen) && s.Snap().autoSaved == saved && s.Snap().autoSavedGen == gen && s.gpio == on
    && Seen(s.policy, c, gen, n, on) && s.Snap().decision.autoState == s.policy.autoState
    && s.Snap().decision.lastSourceS == DAWN + n
  }

  predicate Idle(s: Sys, c: Config, gen: nat) {
    && s.pc == Top && s.writer == Free && s.setup == Done && !s.faulted && !s.provisioning && s.changes <= gen
    && s.disk.profile == Some(c) && !s.disk.marked && !s.disk.auto.Unreadable?
    && s.shared.epoch == gen && !s.shared.forcedOff && !s.shared.pendingConfig && !s.shared.pendingTimed
    && s.Snap().config == c && s.Snap().ready && !s.Snap().inhibited
  }

  predicate Seen(p: State, c: Config, gen: nat, n: nat, on: bool) {
    && p.gate == Gate(c, gen, true, false, n, DAWN + n) && (p.home <==> p.autoState == Home)
    && p.offSince == 0 && p.override == 0 && p.commanded == on
  }

  /** A step that leaves the storage worker and the disk alone. */
  predicate StoreUntouched(s: Sys, t: Sys) { t.worker == s.worker && t.disk == s.disk && t.setup == s.setup }

  /** What one more fix makes of the policy. */
  lemma FixSeen(p: State, c: Config, gen: nat, n: nat, far: bool, now: int)
    requires Live(c) && p.gate.config == c && p.gate.generation == gen && p.gate.configured && !p.gate.fault
    requires 0 < n < 4 && p.gate.lastRequest < n && p.gate.lastSource < DAWN + n
    requires p.offSince == 0 && p.override == 0 && !p.commanded
    ensures var (o, d) := FixNo(c, gen, n, far);
            var q := p.Observe(o, d, now, DAWN + n, true);
            Seen(q, c, gen, n, false) && q.autoState == if far then Away else Home
  {
  }

  /** A tick at `now`, where the gate reads `ready`. */
  lemma TickSeen(p: State, c: Config, gen: nat, n: nat, now: int, ready: bool)
    requires Live(c) && Seen(p, c, gen, n, false) && now >= 0
    ensures var (q, d) := p.Tick(now, ready, false);
            var on := p.home && ready && now >= c.dwellS * 1000 && !c.dryRun;
            && Seen(q, c, gen, n, on) && q.autoState == p.autoState
            && d.commanded == on && d.autoState == p.autoState && d.lastSourceS == DAWN + n
  {
  }

  lemma OneFix(p: State, f: (Observation, real), now: int, n: nat)
    ensures ObserveAll(p, [f], now, DAWN + n, true) == p.Observe(f.0, f.1, now, DAWN + n, true)
  {
    assert [f][1..] == [];
  }

  lemma PassOne(p: State, t: Taken, now: int, n: nat, f: (Observation, real))
    requires !t.off && !t.apply && !t.override
    ensures Pass(p, t, Sees(now, [f], n), false) == p.Observe(f.0, f.1, now, DAWN + n, true)
  {
    OneFix(p, f, now, n);
  }

  /** Between the critical sections of an iteration that has taken settings, if any, and sees one fix. */
  lemma DecideSeen(s: Sys, c: Config, gen: nat, n: nat, far: bool, now: int, p: State)
    requires s.pc.Between? && Live(c) && 0 < n < 4 && now >= 0 && s.Snap().config == c
    requires p.gate.config == c && p.gate.generation == gen && p.gate.configured && !p.gate.fault
    requires p.gate.lastRequest < n && p.gate.lastSource < DAWN + n
    requires p.offSince == 0 && p.override == 0 && !p.commanded
    requires var f := FixNo(c, gen, n, far);
             Pass(s.policy, s.pc.t, Sees(now, [f], n), false) == p.Observe(f.0, f.1, now, DAWN + n, true)
    ensures var t := DecideStep(s, Sees(now, [FixNo(c, gen, n, far)], n));
            var home, saved := if far then Away else Home, s.Snap().autoSaved == Home && s.Snap().autoSavedGen == gen;
            var on := !far && saved && now >= c.dwellS * 1000 && !c.dryRun;
            && t == s.(policy := t.policy, pc := t.pc) && t.pc.Deciding? && t.pc.d.commanded == on
            && t.pc.d.autoState == home == t.policy.autoState && t.pc.d.lastSourceS == DAWN + n
            && Seen(t.policy, c, gen, n, on)
  {
    var f := FixNo(c, gen, n, far);
    FixSeen(p, c, gen, n, far, now);
    TickSeen(p.Observe(f.0, f.1, now, DAWN + n, true), c, gen, n, now, CommitReady(s.Snap(), gen));
  }

  /** One control iteration with one more fix. */
  lemma RoundSeen(s: Sys, c: Config, gen: nat, n: nat, saved: AutoState, far: bool, now: int)
    requires Live(c) && gen > 0 && Steady(s, c, gen, n, saved, false) && n < 3 && now >= 0
    ensures var t := Run(s, Seeing(c, gen, n + 1, far, now));
            && Steady(t, c, gen, n + 1, saved, !far && saved == Home && now >= c.dwellS * 1000 && !c.dryRun)
            && StoreUntouched(s, t) && t.drift == s.drift && t.policy.autoState == if far then Away else Home
  {
    var f := FixNo(c, gen, n + 1, far);
    ThreeSteps(s, Take, Decide(Sees(now, [f], n + 1)), Publish(false, true));
    var s1 := Next(s, Take);
    PassOne(s1.policy, s1.pc.t, now, n + 1, f);
    DecideSeen(s1, c, gen, n + 1, far, now, s.policy);
  }

  /** The first iteration of generation `gen`, which hands the policy its settings. */
  predicate HandedOver(s: Sys, c: Config, gen: nat) {
    && s.pc == Top && s.writer == Free && s.setup == Done && !s.faulted && !s.provisioning && s.changes <= gen
    && s.disk.profile == Some(c) && !s.disk.marked && !s.disk.auto.Unreadable? && !s.shared.pendingTimed
    && s.shared.epoch == gen && s.shared.Applies() && s.shared.newConfig == c
    && s.shared.restored == Unknown && s.shared.source == 0
    && s.policy.offSince == 0 && !s.policy.commanded && !s.policy.gate.fault
  }

  lemma TakesSettings(p: State, c: Config, gen: nat, off: bool)
    requires Live(c) && p.offSince == 0 && !p.commanded && !p.gate.fault
    ensures var q := (if off then p.Off(gen, 0) else p).Configure(c, gen, 0).Restore(Unknown, 0);
            && q.gate == Gate(c, gen, true, false, 0, 0) && q.offSince == 0 && q.override == 0 && !q.commanded
  {
  }

  lemma FirstRound(s: Sys, c: Config, gen: nat)
    requires Live(c) && gen > 0 && HandedOver(s, c, gen)
    ensures var t := Run(s, Seeing(c, gen, 1, false, 0));
            Steady(t, c, gen, 1, Unknown, false) && StoreUntouched(s, t) && t.policy.autoState == Home
  {
    var f := FixNo(c, gen, 1, false);
    ThreeSteps(s, Take, Decide(Sees(0, [f], 1)), Publish(false, true));
    var s1 := Next(s, Take);
    var p := (if s1.pc.t.off then s.policy.Off(gen, 0) else s.policy).Configure(c, gen, 0).Restore(Unknown, 0);
    TakesSettings(s.policy, c, gen, s1.pc.t.off);
    OneFix(p, f, 0, 1);
    DecideSeen(s1, c, gen, 1, false, 0, p);
  }

  /** The worker finds the decision again, holding the mutex. */
  lemma DecisionFound(s: Sys, c: Config, gen: nat, n: nat, saved: AutoState) returns (t: Sys)
    requires Live(c) && Steady(s, c, gen, n, saved, false) && s.policy.autoState != saved && s.worker == Resting
    ensures t == Next(Next(s, AskStore), CheckStore)
    ensures t == s.(worker := Writing, writer := Storing(Found(s), ToKeep, s.decidedBy))
  {
    var s1 := Next(s, AskStore);
    assert s1 == s.(worker := Asking(Found(s)));
    t := Next(s1, CheckStore);
  }

  /** The storage worker, up to its acknowledgement, when the decision is not yet saved. */
  lemma DecisionStored(s: Sys, c: Config, gen: nat, n: nat, saved: AutoState)
    requires Live(c) && n < 4 && Steady(s, c, gen, n, saved, false) && s.policy.autoState != saved && s.worker == Resting
    ensures var t := Run(s, STORE);
            && Steady(t, c, gen, n, saved, false) && t.policy == s.policy
            && t.worker.Acking? && t.worker.act == ToKeep && t.worker.req.gen == gen
            && t.worker.req.state == s.policy.autoState == Load(t.disk.auto, true, c).state
  {
    ThreeSteps(s, STORE[0], STORE[1], STORE[2]);
    var t := DecisionFound(s, c, gen, n, saved);
    KeepGoes(t, c);
  }

  lemma KeepGoes(s: Sys, c: Config)
    requires Live(c) && s.writer.Storing? && s.writer.act == ToKeep && s.writer.req.config == c
    requires SourceOk(s.writer.req.source) && s.disk.profile == Some(c) && !s.disk.marked && !s.disk.auto.Unreadable?
    ensures var t := Next(s, WriteStore(true, true, Committed));
            && t == s.(disk := t.disk, root := t.root, writer := Free, worker := Acking(s.writer.req, ToKeep))
            && t.disk.profile == Some(c) && !t.disk.marked && !t.disk.auto.Unreadable?
            && Load(t.disk.auto, true, c).state == s.writer.req.state
  {
  }

  /** The acknowledgement of a decision that is still published. */
  lemma AckTaken(s: Sys, c: Config, gen: nat, n: nat, saved: AutoState, on: bool)
    requires gen > 0 && Steady(s, c, gen, n, saved, on) && s.worker.Acking? && s.worker.req.gen == gen
    requires s.worker.req.state == s.policy.autoState != Unknown
    ensures var t := Next(s, AckStore);
            && Steady(t, c, gen, n, s.policy.autoState, on) && t.policy == s.policy && t.worker == Resting
            && t.disk == s.disk && t.drift == if s.worker.act == ToKeep then InStep else Adrift
  {
  }

  // ----- An acknowledgement that comes too late -----

  /** Home is decided and saved; a fix turns the decision Away, and Away is written. Before that write
      is acknowledged another fix at home turns the decision back. */
  function Back(c: Config): seq<Label> {
    BOOT + Seeing(c, 1, 1, false, 0) + STORE + [AckStore] + Seeing(c, 1, 2, true, 0) + STORE
      + Seeing(c, 1, 3, false, c.dwellS * 1000)
  }

  lemma HomeSaved(c: Config)
    requires Live(c)
    ensures var s := Run(Init(Some(c), false, 1, 0), BOOT + Seeing(c, 1, 1, false, 0) + STORE + [AckStore]);
            Steady(s, c, 1, 1, Home, false) && s.worker == Resting && s.policy.autoState == Home
  {
    var s0, one := Init(Some(c), false, 1, 0), Seeing(c, 1, 1, false, 0);
    BootGoes(c);
    RunThen(s0, BOOT, one);
    FirstRound(Booted(c), c, 1);
    RunThen(s0, BOOT + one, STORE);
    DecisionStored(Run(s0, BOOT + one), c, 1, 1, Unknown);
    RunOne(s0, BOOT + one + STORE, AckStore);
    AckTaken(Run(s0, BOOT + one + STORE), c, 1, 1, Unknown, false);
  }

  lemma BackGoes(c: Config)
    requires Live(c)
    ensures var s := Run(Init(Some(c), false, 1, 0), Back(c));
            && Steady(s, c, 1, 3, Home, !c.dryRun) && s.policy.autoState == Home
            && s.worker.Acking? && s.worker.act == ToKeep && s.worker.req.gen == 1
            && s.worker.req.state == Away == Load(s.disk.auto, true, c).state
  {
    var s0, xs := Init(Some(c), false, 1, 0), BOOT + Seeing(c, 1, 1, false, 0) + STORE + [AckStore];
    var two, three := Seeing(c, 1, 2, true, 0), Seeing(c, 1, 3, false, c.dwellS * 1000);
    HomeSaved(c);
    RunThen(s0, xs, two);
    RoundSeen(Run(s0, xs), c, 1, 1, Home, true, 0);
    RunThen(s0, xs + two, STORE);
    DecisionStored(Run(s0, xs + two), c, 1, 2, Home);
    RunThen(s0, xs + two + STORE, three);
    RoundSeen(Run(s0, xs + two + STORE), c, 1, 2, Home, false, c.dwellS * 1000);
  }

  /** For any settings that use saved decisions: a run from the first boot in which the acknowledgement
      of Away is refused, the worker finds nothing to store, and the output has gone ON, unless in a dry
      run, while the durable record says Away. */
  lemma LateAckCanOpenTheGate(c: Config)
    requires Live(c)
    ensures var s := Run(Init(Some(c), false, 1, 0), Back(c) + [AckStore]);
            && NothingToStore(s) && s.worker == Resting && s.gpio == !c.dryRun && !s.Told()
            && s.Snap().decision.autoState == Home && Load(s.disk.auto, true, c).state == Away
  {
    RunOne(Init(Some(c), false, 1, 0), Back(c), AckStore);
    BackGoes(c);
  }

  // ----- An acknowledgement of nothing -----

  lemma FiveSteps(s: Sys, a: Label, b: Label, c: Label, d: Label, e: Label)
    ensures Run(s, [a, b, c, d, e]) == Next(Next(Next(Next(Next(s, a), b), c), d), e)
  {
    ThreeSteps(s, a, b, c);
    RunOne(s, [a, b, c], d);
    RunOne(s, [a, b, c, d], e);
    assert [a, b, c] + [d] == [a, b, c, d] && [a, b, c, d] + [e] == [a, b, c, d, e];
  }

  /** A command AUTO waits for its writer under generation 2, and the record can be written. */
  predicate Commanded(s: Sys, c: Config) {
    && s.writer == Free && s.setup == Done && !s.faulted && !s.provisioning && s.changes <= 2
    && s.disk.profile == Some(c) && !s.disk.marked && !s.disk.auto.Unreadable?
    && s.shared.epoch == 2 && 2 in s.jobs && s.jobs[2] == Auto
    && s.Snap().inhibited && s.Snap().ready && s.Snap().config == c.(disabled := true) && !s.shared.pendingConfig
  }

  lemma CommandGoes(s: Sys, c: Config)
    requires Live(c) && Idle(s, c, 1)
    ensures var t := Next(s, InhibitCurrent(1, false, Auto));
            && Commanded(t, c) && t.pc == Top && t.policy == s.policy && t.worker == s.worker && t.disk == s.disk
            && t.shared == s.shared.Inhibit()
  {
  }

  lemma ChangeStarts(s: Sys, c: Config)
    requires Live(c) && Commanded(s, c)
    ensures Next(s, StartChange(2, true)) == s.(jobs := s.jobs - {2}, writer := Changing(Auto, 2, c, ToClear))
  {
  }

  lemma ChangeClears(s: Sys, c: Config)
    requires s.writer == Changing(Auto, 2, c, ToClear) && !s.disk.auto.Unreadable?
    ensures var t := Next(s, ClearForChange(true, Committed));
            && t == s.(disk := s.disk.(auto := t.disk.auto), root := t.root, writer := Changing(Auto, 2, c, ToSave))
            && Blank(t.disk.auto)
  {
  }

  lemma ChangeSaves(s: Sys, c: Config)
    requires s.writer == Changing(Auto, 2, c, ToSave)
    ensures Next(s, SaveChange(Committed))
            == s.(disk := s.disk.(profile := Some(c)), root := None, writer := Changing(Auto, 2, c, ToCheck))
  {
  }

  lemma ChangeEnds(s: Sys, c: Config)
    requires s.writer == Changing(Auto, 2, c, ToCheck) && s.shared.epoch == 2
    ensures Next(Next(s, CheckChange), PublishChange)
            == s.(writer := Free, shared := s.shared.Configure(c, 2, Unknown, 0).0)
  {
    assert Next(s, CheckChange) == s.(writer := Changing(Auto, 2, c, ToPublish));
  }

  /** The writer clears the record, saves the profile and hands it over. */
  lemma ChangeGoes(s: Sys, c: Config)
    requires Live(c) && Commanded(s, c)
    ensures var t := Run(s, WriterSteps(2));
            && t == s.(jobs := t.jobs, disk := t.disk, root := t.root, shared := s.shared.Configure(c, 2, Unknown, 0).0)
            && t.disk.profile == Some(c) && !t.disk.marked && Blank(t.disk.auto)
  {
    var ls := WriterSteps(2);
    FiveSteps(s, ls[0], ls[1], ls[2], ls[3], ls[4]);
    ChangeStarts(s, c);
    var s1 := Next(s, ls[0]);
    ChangeClears(s1, c);
    var s2 := Next(s1, ls[1]);
    ChangeSaves(s2, c);
    ChangeEnds(Next(s2, ls[2]), c);
  }

  /** The worker is told, holding the mutex, to empty the record. */
  lemma NothingFound(s: Sys, c: Config) returns (t: Sys)
    requires Live(c) && Commanded(s, c) && s.worker == Resting
    ensures t == Next(Next(s, AskStore), CheckStore)
    ensures t == s.(worker := Writing, writer := Storing(Found(s), ToEmpty, None))
  {
    var s1 := Next(s, AskStore);
    assert s1 == s.(worker := Asking(Found(s)));
    t := Next(s1, CheckStore);
  }

  lemma EmptyGoes(s: Sys)
    requires s.writer.Storing? && s.writer.act == ToEmpty && !s.disk.auto.Unreadable?
    ensures var t := Next(s, WriteStore(true, true, Committed));
            && t == s.(disk := s.disk.(auto := t.disk.auto), root := t.root, writer := Free,
                       worker := Acking(s.writer.req, ToEmpty))
            && Blank(t.disk.auto)
  {
  }

  /** The worker meets a request, read while the command was in progress, by emptying the record. */
  lemma NothingStored(s: Sys, c: Config)
    requires Live(c) && Commanded(s, c) && s.worker == Resting
    ensures var t := Run(s, STORE);
            && Commanded(t, c) && t.pc == s.pc && t.policy == s.policy && t.shared == s.shared && Blank(t.disk.auto)
            && t.worker == Acking(Found(s), ToEmpty)
  {
    ThreeSteps(s, STORE[0], STORE[1], STORE[2]);
    var t := NothingFound(s, c);
    EmptyGoes(t);
  }

  /** Home is decided; AUTO is commanded, and before the loop has seen that, the worker asks for Home
      and, on looking again, empties the record. AUTO goes through, a fix at home decides Home again, and
      now the worker acknowledges; then comes another fix, a dwell after boot. */
  function Emptied(c: Config): seq<Label> {
    BOOT + Seeing(c, 1, 1, false, 0) + [InhibitCurrent(1, false, Auto)] + STORE
  }

  lemma EmptiedGoes(c: Config)
    requires Live(c)
    ensures var s := Run(Init(Some(c), false, 1, 0), Emptied(c));
            && Commanded(s, c) && s.pc == Top && Seen(s.policy, c, 1, 1, false) && Blank(s.disk.auto)
            && !s.shared.pendingTimed
            && s.worker.Acking? && s.worker.act == ToEmpty && s.worker.req.gen == 2 && s.worker.req.state == Home
  {
    var s0, one := Init(Some(c), false, 1, 0), Seeing(c, 1, 1, false, 0);
    BootGoes(c);
    RunThen(s0, BOOT, one);
    FirstRound(Booted(c), c, 1);
    var s := Run(s0, BOOT + one);
    RunOne(s0, BOOT + one, InhibitCurrent(1, false, Auto));
    CommandGoes(s, c);
    InitOk(Some(c), false, 1, 0);
    RunOk(s0, BOOT + one);
    RunThen(s0, BOOT + one + [InhibitCurrent(1, false, Auto)], STORE);
    NothingStored(Next(s, InhibitCurrent(1, false, Auto)), c);
  }

  function EmptyAcked(c: Config): seq<Label> { Emptied(c) + WriterSteps(2) + Seeing(c, 2, 1, false, 0) + [AckStore] }

  lemma EmptyAckGoes(c: Config)
    requires Live(c)
    ensures var s := Run(Init(Some(c), false, 1, 0), EmptyAcked(c));
            && Steady(s, c, 2, 1, Home, false) && s.policy.autoState == Home && s.worker == Resting
            && Blank(s.disk.auto) && s.drift == Adrift
  {
    var s0, xs, one := Init(Some(c), false, 1, 0), Emptied(c), Seeing(c, 2, 1, false, 0);
    EmptiedGoes(c);
    RunThen(s0, xs, WriterSteps(2));
    ChangeGoes(Run(s0, xs), c);
    RunThen(s0, xs + WriterSteps(2), one);
    FirstRound(Run(s0, xs + WriterSteps(2)), c, 2);
    RunOne(s0, xs + WriterSteps(2) + one, AckStore);
    AckTaken(Run(s0, xs + WriterSteps(2) + one), c, 2, 1, Unknown, false);
  }

  /** For any settings that use saved decisions: the acknowledgement of an emptied record is taken for
      Home, and the output has gone ON, unless in a dry run, with nothing on record and nothing to store. */
  lemma EmptyAckCanOpenTheGate(c: Config)
    requires Live(c)
    ensures var s := Run(Init(Some(c), false, 1, 0), EmptyAcked(c) + Seeing(c, 2, 2, false, c.dwellS * 1000));
            && NothingToStore(s) && s.worker == Resting && s.gpio == !c.dryRun && !s.Told()
            && s.Snap().decision.autoState == Home && Blank(s.disk.auto)
  {
    var s0 := Init(Some(c), false, 1, 0);
    EmptyAckGoes(c);
    RunThen(s0, EmptyAcked(c), Seeing(c, 2, 2, false, c.dwellS * 1000));
    RoundSeen(Run(s0, EmptyAcked(c)), c, 2, 1, Home, false, c.dwellS * 1000);
  }
}
