/** What every reachable state of the control protocol keeps, and the safety results that follow. */
module ControlProofs {
  import opened Wrappers
  import opened Settings
  import opened Errors
  import opened AutoJournals
  import opened PolicyModel
  import opened SharedState
  import opened ControlSystem
  import E = Epochs

  // ----- The invariant -----

  predicate Known(s: Sys, v: nat) { E.IsEpoch(v) && E.Ticket(s.seed, v) <= s.changes }

  predicate Issued(s: Sys, v: nat) { Known(s, v) && E.Ticket(s.seed, v) >= 1 }

  predicate EpochOk(s: Sys) {
    && E.IsEpoch(s.seed) && E.IsEpoch(s.shared.epoch)
    && E.Ticket(s.seed, s.shared.epoch) == s.changes < E.PERIOD
  }

  /** Every generation held anywhere is 0 or was issued in this boot. */
  predicate KeysOk(s: Sys) {
    && (forall e | e in s.jobs :: Issued(s, e))
    && (s.policy.gate.generation == 0 || Known(s, s.policy.gate.generation))
    && (s.pc.Between? ==> Known(s, s.pc.t.epoch))
    && (s.writer.Changing? ==> Issued(s, s.writer.epoch) && s.writer.epoch !in s.jobs)
    && (s.shared.pendingConfig ==> s.shared.configEpoch == s.shared.epoch)
  }

  /** The settings of the current generation have not been handed to the control loop. */
  predicate Unsettled(s: Sys) { s.Snap().inhibited && !s.shared.pendingConfig }

  predicate PendingOk(s: Sys) {
    && (s.shared.pendingConfig ==> s.Snap().inhibited)
    && (s.Snap().inhibited ==> s.Snap().config.disabled)
    && (s.shared.epoch in s.jobs || s.writer.Changing? ==> Unsettled(s))
    && (s.changes == 0 && !s.setup.Done? ==> Unsettled(s) && !s.Snap().ready)
    && (!s.setup.Done? ==> s.Snap().autoSaved == Unknown && s.shared.restored == Unknown && s.drift == InStep)
    && (s.shared.pendingConfig && s.Snap().ready ==> s.shared.restored == Unknown)
  }

  predicate Agrees(s: Sys) {
    s.policy.gate.config == s.Snap().config && s.policy.gate.generation == s.shared.epoch
  }

  predicate TakenAgrees(s: Sys, t: Taken) {
    if t.apply then t.c == s.Snap().config && t.epoch == s.shared.epoch else !t.off && Agrees(s)
  }

  /** A snapshot that is not inhibited is the policy's own: same settings, same generation. */
  predicate AgreeOk(s: Sys) {
    && (!s.Snap().inhibited ==>
          && s.Snap().ready && !s.shared.forcedOff && s.Snap().autoSavedGen == s.shared.epoch
          && (if s.pc.Between? then TakenAgrees(s, s.pc.t) else Agrees(s)))
    && (s.pc.Deciding? && s.pc.d.commanded ==>
          && s.policy.gate.config.Valid() && s.policy.gate.config.commissioned && !s.policy.gate.config.disabled)
    && (s.policy.gate.configured ==> s.policy.gate.config.Valid())
  }

  /** What a request keeps while it waits: read under an older generation, or while a command was in
      progress, or of the settings in force. */
  predicate RequestOk(s: Sys, r: Request) {
    && Known(s, r.gen)
    && (r.gen == s.shared.epoch && !r.config.disabled ==> !s.Snap().inhibited && r.config == s.Snap().config)
  }

  predicate WorkerOk(s: Sys) {
    && (s.writer.Storing? <==> s.worker.Writing?)
    && (!s.worker.Resting? ==> s.setup.Done? && s.Snap().ready)
    && (s.worker.Asking? || s.worker.Acking? ==> RequestOk(s, s.worker.req))
    && (s.writer.Storing? ==>
          && RequestOk(s, s.writer.req) && (s.writer.req.gen == s.shared.epoch || Unsettled(s))
          && (s.writer.act == ToKeep && s.writer.req.gen == s.shared.epoch ==> !s.Snap().inhibited))
    && (s.worker.Acking? && s.worker.act == ToKeep ==> !s.worker.req.config.disabled)
    && (s.worker.Asking? && AsksHome(s, s.worker.req) ==> s.decidedBy == Some(s.Snap().config))
  }

  /** The worker asks to keep a Home that is still published under the settings it was read under. */
  predicate AsksHome(s: Sys, r: Request) {
    && r.gen == s.shared.epoch && !r.config.disabled && !s.faulted
    && r.state == Home && s.Snap().decision.autoState == Home
  }

  predicate StageOk(s: Sys) {
    match s.writer
    case Free => true
    case Changing(_, _, p, stage) =>
      && p.Valid() && !s.disk.marked && (stage != ToClear ==> Blank(s.disk.auto))
      && (stage == ToCheck || stage == ToPublish ==> s.disk.profile == Some(p))
      && (stage == ToResave ==> p.disabled)
    case WifiUpdate(p, cleared) => s.provisioning && p.disabled && (cleared ==> Blank(s.disk.auto))
    case Provisioning(next, k) => s.provisioning && next.disabled && (k >= 2 ==> Blank(s.disk.auto))
    case Storing(r, act, under) =>
      act == ToKeep ==>
        && s.disk.profile.Some? && !s.disk.profile.value.disabled
        && (!r.config.disabled ==> s.disk.profile == Some(r.config) && !s.disk.marked)
        && (r.state == Home && !r.config.disabled ==> under == Some(r.config))
  }

  /** The durable records are those of settings `c`, and would restore `state` if anything. */
  predicate Durable(d: Disk, c: Config, state: AutoState) {
    d.profile == Some(c) && !d.marked && (Live(c) ==> Load(d.auto, true, c).state == state)
  }

  function Saved(s: Sys): AutoState { Load(s.disk.auto, true, s.Snap().config).state }

  /** A request of the current generation to keep another state than the saved one. */
  predicate Differs(s: Sys, r: Request) {
    r.gen == s.shared.epoch && !r.config.disabled ==> s.Snap().autoSaved != r.state
  }

  /** A request of the current generation to keep nothing, made before the settings in force. */
  predicate Overtaken(s: Sys, r: Request) {
    r.gen == s.shared.epoch ==> s.Snap().autoSaved == Unknown && s.drift == InStep
  }

  /** The saved state against the durable record. */
  predicate SavedOk(s: Sys) {
    && (if s.Unacked() then Saved(s) == s.worker.req.state else (s.drift == InStep <==> Saved(s) == s.Snap().autoSaved))
    && (s.worker.Asking? ==> Differs(s, s.worker.req))
    && (s.writer.Storing? ==>
          if s.writer.act == ToKeep then Differs(s, s.writer.req) else Overtaken(s, s.writer.req))
    && (s.worker.Acking? ==>
          if s.worker.act == ToKeep then Differs(s, s.worker.req) else Overtaken(s, s.worker.req))
  }

  predicate CoherentOk(s: Sys) {
    !s.provisioning && !s.faulted ==>
      && (s.shared.pendingConfig ==> Durable(s.disk, s.shared.newConfig, s.shared.restored))
      && (!s.Snap().inhibited ==>
            s.disk.profile == Some(s.Snap().config) && !s.disk.marked && (Live(s.Snap().config) ==> SavedOk(s)))
      && (s.changes == 0 && s.setup.LoadedProfile? ==> s.disk.profile == Some(s.setup.c) && !s.disk.marked)
      && (s.changes == 0 && s.setup.Recovered? ==> Durable(s.disk, s.setup.c, s.setup.state))
  }

  predicate RootOk(s: Sys) {
    && (s.disk.auto.Stored? && s.disk.auto.rec.state == Home ==>
          s.root.Some? && s.root == s.disk.auto.rec.binding)
    && (!s.Snap().inhibited ==>
          s.decidedBy == Some(s.Snap().config) || s.Snap().decision.autoState == s.Snap().autoSaved)
  }

  predicate OffOk(s: Sys) {
    && (s.off ==>
          && s.Snap().config.disabled
          && (s.shared.pendingConfig ==> s.shared.newConfig.disabled)
          && (s.shared.epoch in s.jobs ==> s.jobs[s.shared.epoch] == Disable)
          && (s.writer.Changing? && s.writer.epoch == s.shared.epoch ==> s.writer.p.disabled)
          && (s.changes == 0 ==> s.acked && (s.setup.LoadedProfile? || s.setup.Recovered? ==> s.setup.c.disabled)))
    && (s.shared.epoch in s.jobs && s.jobs[s.shared.epoch] == Disable ==> s.off)
    && (s.writer.Changing? && s.writer.epoch == s.shared.epoch && s.writer.change == Disable ==> s.off)
    && (s.acked ==>
          && s.off && s.disk.profile.Some? && s.disk.profile.value.disabled
          && (s.writer.Changing? ==> s.writer.p.disabled))
  }

  predicate GateOk(s: Sys) {
    (s.pc.Deciding? && !s.Snap().inhibited && !s.faulted && !s.provisioning && s.pc.d.commanded && !s.pc.d.timed
     && s.Snap().config.Holds()) ==> s.pc.fair
  }

  predicate Inv(s: Sys) {
    && EpochOk(s) && KeysOk(s) && PendingOk(s) && AgreeOk(s) && StageOk(s) && WorkerOk(s)
    && CoherentOk(s) && RootOk(s) && OffOk(s) && GateOk(s)
  }

  lemma InitOk(profile: Option<Config>, marked: bool, seed: nat, now: int)
    ensures Inv(Init(profile, marked, seed, now))
  {
  }

  lemma CrashOk(s: Sys, seed: nat, now: int)
    requires Inv(s)
    ensures Inv(CrashStep(s, seed, now))
  {
  }

  // ----- Commands -----

  lemma IssueIsFresh(s: Sys)
    requires EpochOk(s) && s.CanIssue()
    ensures var e := E.Next(s.shared.epoch);
            E.IsEpoch(e) && E.Ticket(s.seed, e) == s.changes + 1 && forall v | Known(s, v) :: v != e
  {
    E.NextTicket(s.seed, s.shared.epoch);
  }

  lemma IssueOk(s: Sys, change: Change, off: bool, acked: bool, provisioning: bool)
    requires Inv(s) && s.CanIssue()
    requires (off <==> change == Disable) && (acked ==> off && s.acked) && (s.provisioning ==> provisioning)
    ensures Inv(Issue(s, change).(off := off, acked := acked, provisioning := provisioning))
  {
    IssueIsFresh(s);
  }

  lemma CommandsOk(s: Sys, l: Label)
    requires Inv(s) && (l.Inhibit? || l.InhibitCurrent? || l.BeginProvision?)
    ensures Inv(Next(s, l))
  {
    if s.CanIssue() {
      match l
      case Inhibit => IssueOk(s, Disable, true, s.acked, s.provisioning);
      case InhibitCurrent(_, _, change) =>
        if change != Disable { IssueOk(s, change, false, false, s.provisioning); }
      case BeginProvision(_, _) => IssueOk(s, Disable, true, s.acked, true);
    }
  }

  lemma TimedOk(s: Sys, secs: nat, e: nat, busy: bool)
    requires Inv(s)
    ensures Inv(s.(shared := s.shared.Timed(secs, e, busy).0))
  {
  }

  lemma FaultOk(s: Sys)
    requires Inv(s)
    ensures Inv(s.Fault())
  {
  }

  lemma SmallStepsOk(s: Sys, l: Label)
    requires Inv(s) && (l.Timed? || l.RaiseFault? || l.DropChange?)
    ensures Inv(Next(s, l))
  {
    match l
    case Timed(secs, e, busy) => TimedOk(s, secs, e, busy);
    case RaiseFault => FaultOk(s);
    case DropChange(e) => DropOk(s, e, false);
  }

  // ----- The control loop -----

  lemma {:induction false} ObservingKeepsSettings(p: State, obs: seq<(Observation, real)>, now: int, utc: int, ok: bool)
    ensures var q := ObserveAll(p, obs, now, utc, ok);
            && q.gate.config == p.gate.config && q.gate.generation == p.gate.generation
            && q.gate.configured == p.gate.configured
    decreases |obs|
  {
    if obs != [] {
      ObservingKeepsSettings(p.Observe(obs[0].0, obs[0].1, now, utc, ok), obs[1..], now, utc, ok);
    }
  }

  lemma HandedGate(p: State, t: Taken, now: int)
    requires p.gate.configured ==> p.gate.config.Valid()
    ensures var p1 := if t.off then p.Off(t.epoch, now) else p;
            var g := (if t.apply then p1.Configure(t.c, t.epoch, now).Restore(t.restored, t.source) else p1).gate;
            && (t.apply ==> g.config == t.c && g.generation == t.epoch)
            && (!t.apply && !t.off ==> g == p.gate)
            && (g.generation == p.gate.generation || g.generation == t.epoch)
            && (g.configured ==> g.config.Valid())
  {
    ValidIgnoresDisabled(p.gate.config);
  }

  lemma RestOfPass(p: State, t: Taken, env: Inputs, fault: bool)
    ensures var p3 := if t.override && t.timedEpoch == t.epoch then p.TimedOn(t.seconds, env.now).0 else p;
            var p4 := if env.jumped then p3.ClockJump() else p3;
            (if fault then p4.Fault(env.now) else p4).gate == p.gate.(fault := p.gate.fault || fault)
  {
  }

  /** The settings and generation a policy ticks under are the newest it was handed. */
  lemma PassGate(p: State, t: Taken, env: Inputs, fault: bool)
    requires p.gate.configured ==> p.gate.config.Valid()
    ensures var g := Pass(p, t, env, fault).gate;
            && (t.apply ==> g.config == t.c && g.generation == t.epoch)
            && (!t.apply && !t.off ==> g.config == p.gate.config && g.generation == p.gate.generation)
            && (g.generation == p.gate.generation || g.generation == t.epoch)
            && (g.configured ==> g.config.Valid())
  {
    var p1 := if t.off then p.Off(t.epoch, env.now) else p;
    var p2 := if t.apply then p1.Configure(t.c, t.epoch, env.now).Restore(t.restored, t.source) else p1;
    var p3 := if t.override && t.timedEpoch == t.epoch then p2.TimedOn(t.seconds, env.now).0 else p2;
    var p4 := if env.jumped then p3.ClockJump() else p3;
    var p5 := if fault then p4.Fault(env.now) else p4;
    HandedGate(p, t, env.now);
    RestOfPass(p2, t, env, fault);
    ObservingKeepsSettings(p5, env.obs, env.now, env.utc, env.evidenceOk);
  }

  lemma TickCommands(p: State, now: int, ready: bool, inhibited: bool)
    ensures var (q, d) := p.Tick(now, ready, inhibited);
            && q.gate == p.gate
            && (d.commanded ==> p.gate.configured && p.gate.config.commissioned && !p.gate.config.disabled)
            && (d.commanded && !d.timed ==> ready)
  {
  }

  lemma TakeOk(s: Sys)
    requires Inv(s) && s.pc.Top?
    ensures Inv(Next(s, Take))
  {
  }

  /** A decision the policy may hold until it is published. */
  lemma DecisionHeldOk(s: Sys, q: State, d: Decision)
    requires Inv(s) && s.pc.Between?
    requires s.pc.t.apply ==> q.gate.config == s.pc.t.c && q.gate.generation == s.pc.t.epoch
    requires !s.pc.t.apply && !s.pc.t.off ==>
               q.gate.config == s.policy.gate.config && q.gate.generation == s.policy.gate.generation
    requires q.gate.generation == s.policy.gate.generation || q.gate.generation == s.pc.t.epoch
    requires q.gate.configured ==> q.gate.config.Valid()
    requires d.commanded ==> q.gate.configured && q.gate.config.commissioned && !q.gate.config.disabled
    requires d.commanded && !d.timed ==> CommitReady(s.Snap(), q.gate.generation)
    ensures Inv(s.(policy := q, pc := Deciding(d, Restorable(s.disk, q.gate.config, Home) <==> s.Told())))
  {
  }

  lemma DecideOk(s: Sys, env: Inputs)
    requires Inv(s) && s.pc.Between?
    ensures Inv(DecideStep(s, env))
  {
    var p := Pass(s.policy, s.pc.t, env, env.sawFault && s.faulted);
    PassGate(s.policy, s.pc.t, env, env.sawFault && s.faulted);
    var ready := CommitReady(s.Snap(), p.gate.generation);
    TickCommands(p, env.now, ready, env.busy);
    var (q, d) := p.Tick(env.now, ready, env.busy);
    DecisionHeldOk(s, q, d);
  }

  lemma PublishOk(s: Sys, busy: bool, gpioOk: bool)
    requires Inv(s) && s.pc.Deciding?
    ensures Inv(PublishStep(s, busy, gpioOk))
  {
  }

  // ----- Writers -----

  lemma DropOk(s: Sys, e: nat, failed: bool)
    requires Inv(s)
    ensures Inv(s.(jobs := s.jobs - {e}, faulted := s.faulted || failed))
  {
  }

  lemma ChangeStartsOk(s: Sys, e: nat, p: Config)
    requires Inv(s) && s.writer.Free? && e in s.jobs && e == s.shared.epoch && p.Valid() && !s.disk.marked
    requires s.jobs[e] == Disable ==> p.disabled
    ensures Inv(s.(jobs := s.jobs - {e}, writer := Changing(s.jobs[e], e, p, ToClear)))
  {
  }

  lemma StartChangeOk(s: Sys, e: nat, readOk: bool)
    requires Inv(s) && s.writer.Free? && e in s.jobs
    ensures Inv(StartChangeStep(s, e, readOk))
  {
    DropOk(s, e, false);
    DropOk(s, e, true);
    if e == s.shared.epoch && s.ProfileReadable(readOk) {
      var p := Changed(s.jobs[e], s.disk.profile.value);
      if p.Some? && p.value.Valid() {
        ChangeStartsOk(s, e, p.value);
      }
    }
  }

  predicate HomeHasRoot(s: Sys) {
    s.disk.auto.Stored? && s.disk.auto.rec.state == Home ==> s.root.Some? && s.root == s.disk.auto.rec.binding
  }

  predicate StoredOff(s: Sys) { s.acked ==> s.disk.profile.Some? && s.disk.profile.value.disabled }

  predicate SameWriter(s: Sys, t: Sys) {
    t.writer.Changing? ==>
      && s.writer.Changing? && t.writer.epoch == s.writer.epoch && t.writer.change == s.writer.change
      && (s.writer.p.disabled ==> t.writer.p.disabled)
  }

  /** While a writer holds the mutex, its own durable writes disturb nothing else. */
  lemma DiskStepOk(s: Sys, t: Sys)
    requires Inv(s) && t == s.(disk := t.disk, root := t.root, writer := t.writer, faulted := t.faulted)
    requires (s.faulted ==> t.faulted) && SameWriter(s, t) && (s.writer.Changing? || s.provisioning)
    requires !s.writer.Storing? && !t.writer.Storing? && StageOk(t) && HomeHasRoot(t) && StoredOff(t)
    ensures Inv(t)
  {
  }

  lemma ClearStepOk(s: Sys, readOk: bool, w: Write)
    requires Inv(s)
    ensures var (slot, e) := Clear(s.disk.auto, readOk, w);
            && HomeHasRoot(s.SetAuto(slot)) && StoredOff(s.SetAuto(slot)) && (e == NoError ==> Blank(slot))
            && s.SetAuto(slot) == s.(disk := s.SetAuto(slot).disk, root := s.SetAuto(slot).root)
            && s.SetAuto(slot).disk == s.disk.(auto := slot)
  {
    ClearedIsForgotten(s.disk.auto, readOk, w, FACTORY);
  }

  lemma ClearChangeOk(s: Sys, readOk: bool, w: Write)
    requires Inv(s) && s.writer.Changing? && s.writer.stage == ToClear
    ensures Inv(ChangeStep(s, ClearForChange(readOk, w)))
  {
    ClearStepOk(s, readOk, w);
    DiskStepOk(s, ChangeStep(s, ClearForChange(readOk, w)));
  }

  lemma ProfileStepOk(s: Sys, p: Config, w: Write)
    requires Inv(s) && Blank(s.disk.auto) && (s.acked ==> p.disabled)
    ensures var t := s.SetProfile(p, w);
            && HomeHasRoot(t) && StoredOff(t) && t == s.(disk := t.disk, root := t.root)
            && t.disk.auto == s.disk.auto && t.disk.marked == s.disk.marked
            && (w.Seen() ==> t.disk.profile == Some(p))
  {
  }

  /** The profile is written, or not: the writer goes on, or gives up. */
  lemma ProfileWrittenOk(s: Sys, p: Config, w: Write, next: Writer)
    requires Inv(s) && !s.writer.Storing? && !next.Storing? && Blank(s.disk.auto) && (s.acked ==> p.disabled)
    requires s.writer.Changing? || s.provisioning
    requires SameWriter(s, s.(writer := next)) && (w.Seen() ==> StageOk(s.SetProfile(p, w).(writer := next)))
    ensures w.Seen() ==> Inv(s.SetProfile(p, w).(writer := next))
    ensures Inv(s.SetProfile(p, w).FailWrite())
  {
    ProfileStepOk(s, p, w);
    var t := s.SetProfile(p, w);
    if w.Seen() {
      DiskStepOk(s, t.(writer := next));
    }
    DiskStepOk(s, t.FailWrite());
  }

  lemma SaveChangeOk(s: Sys, w: Write)
    requires Inv(s) && s.writer.Changing? && s.writer.stage == ToSave
    ensures Inv(ChangeStep(s, SaveChange(w)))
  {
    ProfileWrittenOk(s, s.writer.p, w, s.writer.(stage := ToCheck));
  }

  lemma CheckChangeOk(s: Sys)
    requires Inv(s) && s.writer.Changing? && s.writer.stage == ToCheck
    ensures Inv(ChangeStep(s, CheckChange))
  {
    ValidIgnoresDisabled(s.writer.p);
    DiskStepOk(s, ChangeStep(s, CheckChange));
  }

  lemma ResaveChangeOk(s: Sys, w: Write)
    requires Inv(s) && s.writer.Changing? && s.writer.stage == ToResave
    ensures Inv(ChangeStep(s, ResaveChange(w)))
  {
    ProfileWrittenOk(s, s.writer.p, w, Free);
  }

  lemma PublishChangeOk(s: Sys)
    requires Inv(s) && s.writer.Changing?
    ensures Inv(ChangeStep(s, PublishChange))
  {
  }

  lemma ClearWifiOk(s: Sys, readOk: bool, w: Write)
    requires Inv(s) && s.writer.WifiUpdate? && !s.writer.cleared
    ensures Inv(WifiStep(s, ClearForWifi(readOk, w)))
  {
    ClearStepOk(s, readOk, w);
    DiskStepOk(s, WifiStep(s, ClearForWifi(readOk, w)));
  }

  lemma SaveWifiOk(s: Sys, w: Write)
    requires Inv(s) && s.writer.WifiUpdate? && s.writer.cleared
    ensures Inv(WifiStep(s, SaveWifi(w)))
  {
    ProfileWrittenOk(s, s.writer.p, w, Free);
  }

  lemma StartsOk(s: Sys, e: nat, readOk: bool, next: Config, nb: bool)
    requires Inv(s) && s.writer.Free?
    ensures Inv(StartWifiStep(s, e, readOk)) && Inv(StartProvisionStep(s, next, nb))
  {
  }

  lemma ProvisionProfileOk(s: Sys, w: Write)
    requires Inv(s) && s.writer.Provisioning? && s.writer.step == 3
    ensures Inv(ProvisionWrite(s, w))
  {
    ProfileStepOk(s, s.writer.next, w);
    DiskStepOk(s, ProvisionWrite(s, w));
  }

  lemma ProvisionAutoOk(s: Sys, w: Write)
    requires Inv(s) && s.writer.Provisioning? && s.writer.step == 1
    ensures Inv(ProvisionWrite(s, w))
  {
    DiskStepOk(s, ProvisionWrite(s, w));
  }

  lemma ProvisionMarkOk(s: Sys, w: Write)
    requires Inv(s) && s.writer.Provisioning? && s.writer.step != 1 && s.writer.step != 3
    ensures Inv(ProvisionWrite(s, w))
  {
    DiskStepOk(s, ProvisionWrite(s, w));
  }

  // ----- The storage worker and boot -----

  lemma AskOk(s: Sys)
    requires Inv(s) && s.worker.Resting? && s.setup.Done?
    ensures Inv(AskStep(s))
  {
  }

  lemma RefusedOk(s: Sys)
    requires Inv(s) && s.worker.Asking?
    ensures Inv(s.(worker := Resting))
  {
  }

  /** The request is to be met by emptying the record. */
  lemma EmptyingOk(s: Sys)
    requires Inv(s) && s.worker.Asking? && s.writer.Free? && s.worker.req.gen == s.shared.epoch
    requires s.faulted || s.Snap().inhibited || s.Snap().config.disabled
    ensures Inv(s.(worker := Writing, writer := Storing(s.worker.req, ToEmpty, None)))
  {
  }

  lemma KeepingOk(s: Sys)
    requires Inv(s) && s.worker.Asking? && s.writer.Free? && s.worker.req.gen == s.shared.epoch
    requires !s.provisioning && !s.faulted && !s.Snap().inhibited && !s.Snap().config.disabled
    requires s.Snap().decision.autoState == s.worker.req.state
    ensures Inv(s.(worker := Writing, writer := Storing(s.worker.req, ToKeep, s.decidedBy)))
  {
  }

  lemma CheckOk(s: Sys)
    requires Inv(s) && s.worker.Asking? && s.writer.Free?
    ensures Inv(CheckStep(s))
  {
    var t := CheckStep(s);
    if t.writer.Free? {
      RefusedOk(s);
    } else if t.writer.act == ToEmpty {
      EmptyingOk(s);
    } else {
      KeepingOk(s);
    }
  }

  lemma WriteFailedOk(s: Sys, slot: Slot)
    requires Inv(s) && s.writer.Storing? && HomeHasRoot(s.SetAuto(slot))
    ensures Inv(s.SetAuto(slot).FailWrite().(worker := Resting))
  {
  }

  lemma EmptiedOk(s: Sys, slot: Slot)
    requires Inv(s) && s.writer.Storing? && s.writer.act == ToEmpty && HomeHasRoot(s.SetAuto(slot)) && Blank(slot)
    ensures Inv(s.SetAuto(slot).(writer := Free, worker := Acking(s.writer.req, ToEmpty)))
  {
  }

  lemma KeptOk(s: Sys, slot: Slot)
    requires Inv(s) && s.writer.Storing? && s.writer.act == ToKeep && HomeHasRoot(s.SetAuto(slot))
    requires s.disk.profile == Some(s.writer.req.config)
    requires slot.Stored? && slot.rec.binding == Some(s.writer.req.config) && slot.rec.state == s.writer.req.state
    ensures Inv(s.SetAuto(slot).(writer := Free, worker := Acking(s.writer.req, ToKeep)))
  {
  }

  /** What `persist_auto_state` leaves. */
  lemma Persisted(s: Sys, readOk: bool, profileOk: bool, w: Write)
    requires Inv(s) && s.writer.Storing?
    ensures var (slot, e) := Persist(s, readOk, profileOk, w);
            && HomeHasRoot(s.SetAuto(slot))
            && (e == NoError && s.writer.act == ToEmpty ==> Blank(slot))
            && (e == NoError && s.writer.act == ToKeep ==>
                  && s.disk.profile == Some(s.writer.req.config)
                  && slot.Stored? && slot.rec.binding == Some(s.writer.req.config) && slot.rec.state == s.writer.req.state)
  {
    ClearedIsForgotten(s.disk.auto, readOk, w, FACTORY);
  }

  lemma WriteOk(s: Sys, readOk: bool, profileOk: bool, w: Write)
    requires Inv(s) && s.writer.Storing?
    ensures Inv(WriteStep(s, readOk, profileOk, w))
  {
    var (slot, e) := Persist(s, readOk, profileOk, w);
    Persisted(s, readOk, profileOk, w);
    if e != NoError {
      WriteFailedOk(s, slot);
    } else if s.writer.act == ToEmpty {
      EmptiedOk(s, slot);
    } else {
      KeptOk(s, slot);
    }
  }

  lemma AckOk(s: Sys)
    requires Inv(s) && s.worker.Acking?
    ensures Inv(AckStep(s))
  {
  }

  lemma ProfileLoadedOk(s: Sys, to: Setup, failed: bool)
    requires Inv(s) && s.setup.Start?
    requires to == Done || (!s.disk.marked && s.disk.profile.Some? && to == LoadedProfile(s.disk.profile.value))
    ensures Inv(s.(setup := to, faulted := s.faulted || failed))
  {
  }

  lemma LoadProfileOk(s: Sys, readOk: bool)
    requires Inv(s) && s.setup.Start?
    ensures Inv(LoadProfileStep(s, readOk))
  {
    ProfileLoadedOk(s, Done, false);
    ProfileLoadedOk(s, Done, true);
    if s.ProfileReadable(readOk) {
      ProfileLoadedOk(s, LoadedProfile(s.disk.profile.value), false);
    }
  }

  lemma RecoveredOk(s: Sys, slot: Slot, l: Loaded)
    requires Inv(s) && s.setup.LoadedProfile? && s.writer.Free?
    requires slot == s.disk.auto || slot == Stored(EMPTY)
    requires l.error == NoError ==> Load(slot, true, s.setup.c).state == l.state
    ensures Inv(s.SetAuto(slot).(setup := Recovered(s.setup.c, l.state, l.source),
                                 faulted := s.faulted || l.error != NoError))
  {
  }

  lemma RecoverStepIs(s: Sys, allow: bool, tokens: Tokens, readOk: bool, clearOk: bool, w: Write)
    requires s.setup.LoadedProfile?
    ensures var (slot, l) := Recover(s.disk.auto, readOk, s.setup.c, allow, tokens, clearOk, w);
            RecoverStep(s, allow, tokens, readOk, clearOk, w)
            == s.SetAuto(slot).(setup := Recovered(s.setup.c, l.state, l.source),
                                faulted := s.faulted || l.error != NoError)
  {
  }

  lemma RecoverOk(s: Sys, allow: bool, tokens: Tokens, readOk: bool, clearOk: bool, w: Write)
    requires Inv(s) && s.setup.LoadedProfile? && s.writer.Free?
    ensures Inv(RecoverStep(s, allow, tokens, readOk, clearOk, w))
  {
    RecoverIsCautious(s.disk.auto, readOk, s.setup.c, allow, tokens, clearOk, w);
    var (slot, l) := Recover(s.disk.auto, readOk, s.setup.c, allow, tokens, clearOk, w);
    RecoverStepIs(s, allow, tokens, readOk, clearOk, w);
    RecoveredOk(s, slot, l);
  }

  lemma FinishOk(s: Sys)
    requires Inv(s) && s.setup.Recovered?
    ensures Inv(FinishStep(s))
  {
  }

  // ----- Every step, every run -----

  lemma ChangeStepsOk(s: Sys, l: Label)
    requires Inv(s) && s.writer.Changing?
    ensures Inv(ChangeStep(s, l))
  {
    match (l, s.writer.stage)
    case (ClearForChange(readOk, w), ToClear) => ClearChangeOk(s, readOk, w);
    case (SaveChange(w), ToSave) => SaveChangeOk(s, w);
    case (CheckChange, ToCheck) => CheckChangeOk(s);
    case (ResaveChange(w), ToResave) => ResaveChangeOk(s, w);
    case (PublishChange, ToPublish) => PublishChangeOk(s);
    case _ =>
  }

  lemma WifiStepsOk(s: Sys, l: Label)
    requires Inv(s) && s.writer.WifiUpdate?
    ensures Inv(WifiStep(s, l))
  {
    match l
    case ClearForWifi(readOk, w) => if !s.writer.cleared { ClearWifiOk(s, readOk, w); }
    case SaveWifi(w) => if s.writer.cleared { SaveWifiOk(s, w); }
    case _ =>
  }

  lemma ProvisionStepsOk(s: Sys, w: Write)
    requires Inv(s) && s.writer.Provisioning?
    ensures Inv(ProvisionWrite(s, w))
  {
    if s.writer.step == 1 {
      ProvisionAutoOk(s, w);
    } else if s.writer.step == 3 {
      ProvisionProfileOk(s, w);
    } else {
      ProvisionMarkOk(s, w);
    }
  }

  predicate IsLoop(l: Label) {
    l.Inhibit? || l.InhibitCurrent? || l.BeginProvision? || l.Timed? || l.RaiseFault? || l.DropChange? ||
    l.Take? || l.Decide? || l.Publish? || l.Crash?
  }

  predicate IsBoot(l: Label) { l.LoadProfile? || l.RecoverDecision? || l.FinishSetup? }

  predicate IsStore(l: Label) { l.AskStore? || l.CheckStore? || l.WriteStore? || l.AckStore? }

  lemma LoopOk(s: Sys, l: Label)
    requires Inv(s) && IsLoop(l)
    ensures Inv(Next(s, l))
  {
    if l.Inhibit? || l.InhibitCurrent? || l.BeginProvision? {
      CommandsOk(s, l);
    } else if l.Timed? || l.RaiseFault? || l.DropChange? {
      SmallStepsOk(s, l);
    } else {
      match l
      case Take => if s.pc.Top? { TakeOk(s); }
      case Decide(env) => if s.pc.Between? { DecideOk(s, env); }
      case Publish(busy, gpioOk) => if s.pc.Deciding? { PublishOk(s, busy, gpioOk); }
      case Crash(seed, now) => CrashOk(s, seed, now);
    }
  }

  lemma StoreStepsOk(s: Sys, l: Label)
    requires Inv(s) && IsStore(l)
    ensures Inv(Next(s, l))
  {
    match l
    case AskStore => if s.worker.Resting? && s.setup.Done? { AskOk(s); }
    case CheckStore => if s.worker.Asking? && s.writer.Free? { CheckOk(s); }
    case WriteStore(readOk, profileOk, w) => if s.writer.Storing? { WriteOk(s, readOk, profileOk, w); }
    case AckStore => if s.worker.Acking? { AckOk(s); }
  }

  lemma BootStepsOk(s: Sys, l: Label)
    requires Inv(s) && IsBoot(l)
    ensures Inv(Next(s, l))
  {
    match l
    case LoadProfile(readOk) => if s.setup.Start? { LoadProfileOk(s, readOk); }
    case RecoverDecision(allow, tokens, readOk, clearOk, w) =>
      if s.setup.LoadedProfile? && s.writer.Free? { RecoverOk(s, allow, tokens, readOk, clearOk, w); }
    case FinishSetup => if s.setup.Recovered? { FinishOk(s); }
  }

  lemma WritersOk(s: Sys, l: Label)
    requires Inv(s) && !IsLoop(l) && !IsBoot(l) && !IsStore(l)
    ensures Inv(Next(s, l))
  {
    if s.writer.Free? {
      match l
      case StartChange(e, readOk) => if e in s.jobs { StartChangeOk(s, e, readOk); }
      case StartWifi(e, readOk) => StartsOk(s, e, readOk, FACTORY, false);
      case StartProvision(next, nb) => StartsOk(s, 0, false, next, nb);
      case _ =>
    } else if l.ProvisionStep? {
      if s.writer.Provisioning? { ProvisionStepsOk(s, l.w); }
    } else if s.writer.Changing? {
      ChangeStepsOk(s, l);
    } else if s.writer.WifiUpdate? {
      WifiStepsOk(s, l);
    }
  }

  lemma NextOk(s: Sys, l: Label)
    requires Inv(s)
    ensures Inv(Next(s, l))
  {
    if IsLoop(l) {
      LoopOk(s, l);
    } else if IsBoot(l) {
      BootStepsOk(s, l);
    } else if IsStore(l) {
      StoreStepsOk(s, l);
    } else {
      WritersOk(s, l);
    }
  }

  lemma {:induction false} RunOk(s: Sys, ls: seq<Label>)
    requires Inv(s)
    ensures Inv(Run(s, ls))
  {
    if ls != [] {
      RunOk(s, ls[..|ls| - 1]);
      NextOk(Run(s, ls[..|ls| - 1]), ls[|ls| - 1]);
    }
  }
}
