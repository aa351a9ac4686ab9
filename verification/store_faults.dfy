/** When the storage worker raises the critical fault. Its failures are meant for a store that cannot
    be read or written; it can also fail a request that settings have overtaken. */
module StoreFaults {
  import opened Wrappers
  import opened Settings
  import opened Errors
  import opened AutoJournals
  import opened PolicyModel
  import opened SharedState
  import opened ControlSystem
  import opened ControlProofs
  import opened ControlResults
  import opened ControlRuns
  import opened LateAcks

  // ----- What is asked to be stored can be stored -----

  /** Every source time held anywhere can be stored. */
  predicate SourcesOk(s: Sys) {
    && SourceOk(s.shared.source) && SourceOk(s.policy.gate.lastSource) && SourceOk(s.Snap().decision.lastSourceS)
    && (s.pc.Between? ==> SourceOk(s.pc.t.source))
    && (s.pc.Deciding? ==> SourceOk(s.pc.d.lastSourceS))
    && (s.disk.auto.Stored? ==> SourceOk(s.disk.auto.rec.source))
    && (s.setup.Recovered? ==> SourceOk(s.setup.source))
    && (s.worker.Asking? || s.worker.Acking? ==> SourceOk(s.worker.req.source))
    && (s.writer.Storing? ==> SourceOk(s.writer.req.source))
  }

  /** Settings that are handed over, in force, or asked to be kept are valid. */
  predicate ConfigsOk(s: Sys) {
    && (s.shared.pendingConfig ==> s.shared.newConfig.Valid())
    && (!s.Snap().inhibited ==> s.Snap().config.Valid())
    && (s.setup.LoadedProfile? || s.setup.Recovered? ==> s.setup.c.Valid())
    && (s.writer.Storing? && s.writer.act == ToKeep && !s.writer.req.config.disabled ==> s.writer.req.config.Valid())
  }

  predicate Storable(s: Sys) { SourcesOk(s) && ConfigsOk(s) }

  lemma LoopStorable(s: Sys, l: Label)
    requires Inv(s) && Storable(s) && IsLoop(l) && !l.Decide?
    ensures Storable(Next(s, l))
  {
  }

  lemma {:induction false} ObservingSource(p: State, obs: seq<(Observation, real)>, now: int, utc: int, ok: bool)
    requires SourceOk(p.gate.lastSource)
    ensures SourceOk(ObserveAll(p, obs, now, utc, ok).gate.lastSource)
    decreases |obs|
  {
    if obs != [] {
      ObservingSource(p.Observe(obs[0].0, obs[0].1, now, utc, ok), obs[1..], now, utc, ok);
    }
  }

  lemma HandedSource(p: State, t: Taken, env: Inputs, fault: bool)
    requires SourceOk(p.gate.lastSource) && SourceOk(t.source)
    ensures var p1 := if t.off then p.Off(t.epoch, env.now) else p;
            var p2 := if t.apply then p1.Configure(t.c, t.epoch, env.now).Restore(t.restored, t.source) else p1;
            SourceOk(p2.gate.lastSource)
  {
  }

  lemma PassSource(p: State, t: Taken, env: Inputs, fault: bool)
    requires SourceOk(p.gate.lastSource) && SourceOk(t.source)
    ensures SourceOk(Pass(p, t, env, fault).gate.lastSource)
  {
    var p1 := if t.off then p.Off(t.epoch, env.now) else p;
    var p2 := if t.apply then p1.Configure(t.c, t.epoch, env.now).Restore(t.restored, t.source) else p1;
    HandedSource(p, t, env, fault);
    RestOfPass(p2, t, env, fault);
    var p3 := if t.override && t.timedEpoch == t.epoch then p2.TimedOn(t.seconds, env.now).0 else p2;
    var p4 := if env.jumped then p3.ClockJump() else p3;
    ObservingSource(if fault then p4.Fault(env.now) else p4, env.obs, env.now, env.utc, env.evidenceOk);
  }

  lemma TickSource(p: State, now: int, ready: bool, inhibited: bool)
    ensures var (q, d) := p.Tick(now, ready, inhibited);
            q.gate == p.gate && d.lastSourceS == p.gate.lastSource
  {
  }

  lemma DecideStorable(s: Sys, env: Inputs)
    requires Storable(s) && s.pc.Between?
    ensures Storable(DecideStep(s, env))
  {
    var p := Pass(s.policy, s.pc.t, env, env.sawFault && s.faulted);
    PassSource(s.policy, s.pc.t, env, env.sawFault && s.faulted);
    TickSource(p, env.now, CommitReady(s.Snap(), p.gate.generation), env.busy);
  }

  lemma AskStorable(s: Sys)
    requires Storable(s)
    ensures Storable(AskStep(s))
  {
  }

  lemma CheckStorable(s: Sys)
    requires Inv(s) && Storable(s) && s.worker.Asking? && s.writer.Free?
    ensures Storable(CheckStep(s))
  {
  }

  lemma SlotStorable(s: Sys, readOk: bool, profileOk: bool, w: Write)
    requires Storable(s) && s.writer.Storing?
    ensures var slot := Persist(s, readOk, profileOk, w).0; slot.Stored? ==> SourceOk(slot.rec.source)
  {
  }

  lemma WrittenStorable(s: Sys, slot: Slot)
    requires Storable(s) && s.writer.Storing? && (slot.Stored? ==> SourceOk(slot.rec.source))
    ensures Storable(s.SetAuto(slot).(writer := Free, worker := Acking(s.writer.req, s.writer.act)))
    ensures Storable(s.SetAuto(slot).FailWrite().(worker := Resting))
  {
  }

  lemma WriteStorable(s: Sys, readOk: bool, profileOk: bool, w: Write)
    requires Storable(s) && s.writer.Storing?
    ensures Storable(WriteStep(s, readOk, profileOk, w))
  {
    SlotStorable(s, readOk, profileOk, w);
    WrittenStorable(s, Persist(s, readOk, profileOk, w).0);
  }

  lemma AckStorable(s: Sys)
    requires Storable(s) && s.worker.Acking?
    ensures Storable(AckStep(s))
  {
  }

  lemma StoreStorable(s: Sys, l: Label)
    requires Inv(s) && Storable(s) && IsStore(l)
    ensures Storable(Next(s, l))
  {
    match l
    case AskStore => AskStorable(s);
    case CheckStore => if s.worker.Asking? && s.writer.Free? { CheckStorable(s); }
    case WriteStore(readOk, profileOk, w) => if s.writer.Storing? { WriteStorable(s, readOk, profileOk, w); }
    case AckStore => if s.worker.Acking? { AckStorable(s); }
  }

  lemma LoadStorable(s: Sys, readOk: bool)
    requires Storable(s)
    ensures Storable(LoadProfileStep(s, readOk))
  {
  }

  lemma RecoverStorable(s: Sys, allow: bool, tokens: Tokens, readOk: bool, clearOk: bool, w: Write)
    requires Storable(s) && s.setup.LoadedProfile? && s.writer.Free?
    ensures Storable(RecoverStep(s, allow, tokens, readOk, clearOk, w))
  {
    RecoverIsCautious(s.disk.auto, readOk, s.setup.c, allow, tokens, clearOk, w);
    RecoverStepIs(s, allow, tokens, readOk, clearOk, w);
    RecoveredSource(s.disk.auto, readOk, s.setup.c, allow, tokens, clearOk, w);
  }

  lemma RecoveredSource(slot: Slot, readOk: bool, c: Config, allow: bool, tokens: Tokens, clearOk: bool, w: Write)
    requires slot.Stored? ==> SourceOk(slot.rec.source)
    ensures SourceOk(Recover(slot, readOk, c, allow, tokens, clearOk, w).1.source)
  {
  }

  lemma FinishStorable(s: Sys)
    requires Storable(s) && s.setup.Recovered?
    ensures Storable(FinishStep(s))
  {
  }

  lemma BootStorable(s: Sys, l: Label)
    requires Inv(s) && Storable(s) && IsBoot(l)
    ensures Storable(Next(s, l))
  {
    match l
    case LoadProfile(readOk) => LoadStorable(s, readOk);
    case RecoverDecision(allow, tokens, readOk, clearOk, w) =>
      if s.setup.LoadedProfile? && s.writer.Free? { RecoverStorable(s, allow, tokens, readOk, clearOk, w); }
    case FinishSetup => if s.setup.Recovered? { FinishStorable(s); }
  }

  /** A step of a writer that at most empties the record. */
  predicate OnlyEmpties(s: Sys, t: Sys) {
    && t == s.(disk := t.disk, root := t.root, writer := t.writer, faulted := t.faulted, jobs := t.jobs)
    && (t.disk.auto == s.disk.auto || t.disk.auto == Stored(EMPTY)) && !t.writer.Storing?
  }

  lemma EmptiesStorable(s: Sys, t: Sys)
    requires Storable(s) && OnlyEmpties(s, t)
    ensures Storable(t)
  {
  }

  lemma DiskWritesEmpty(s: Sys, readOk: bool, p: Config, w: Write, next: Writer)
    requires !next.Storing?
    ensures var t := s.SetAuto(Clear(s.disk.auto, readOk, w).0);
            OnlyEmpties(s, t.(writer := next)) && OnlyEmpties(s, t.FailWrite())
    ensures OnlyEmpties(s, s.SetProfile(p, w).(writer := next)) && OnlyEmpties(s, s.SetProfile(p, w).FailWrite())
  {
  }

  lemma ChangeEmpties(s: Sys, l: Label)
    requires s.writer.Changing? && !l.PublishChange?
    ensures OnlyEmpties(s, ChangeStep(s, l))
  {
    var wr := s.writer;
    match (l, wr.stage)
    case (ClearForChange(ok, w), ToClear) => DiskWritesEmpty(s, ok, wr.p, w, wr.(stage := ToSave));
    case (SaveChange(w), ToSave) => DiskWritesEmpty(s, true, wr.p, w, wr.(stage := ToCheck));
    case (ResaveChange(w), ToResave) => DiskWritesEmpty(s, true, wr.p, w, Free);
    case _ =>
  }

  lemma HandsOver(s: Sys, l: Label)
    requires Inv(s) && Storable(s) && s.writer.Changing? && l.PublishChange?
    ensures Storable(ChangeStep(s, l))
  {
  }

  lemma WifiEmpties(s: Sys, l: Label)
    requires s.writer.WifiUpdate?
    ensures OnlyEmpties(s, WifiStep(s, l))
  {
    match l
    case ClearForWifi(ok, w) => DiskWritesEmpty(s, ok, s.writer.p, w, s.writer.(cleared := true));
    case SaveWifi(w) => DiskWritesEmpty(s, true, s.writer.p, w, Free);
    case _ =>
  }

  lemma EffectEmpties(s: Sys, w: Write)
    requires s.writer.Provisioning?
    ensures OnlyEmpties(s, ProvisionEffect(s, w))
  {
  }

  lemma ProvisionEmpties(s: Sys, w: Write)
    requires s.writer.Provisioning?
    ensures OnlyEmpties(s, ProvisionWrite(s, w))
  {
    EffectEmpties(s, w);
    var t := ProvisionEffect(s, w);
    assert ProvisionWrite(s, w) == t.(writer := ProvisionWrite(s, w).writer, faulted := ProvisionWrite(s, w).faulted);
  }

  lemma StartsEmpty(s: Sys, l: Label)
    requires s.writer.Free?
    ensures l.StartChange? && l.e in s.jobs ==> OnlyEmpties(s, StartChangeStep(s, l.e, l.readOk))
    ensures l.StartWifi? ==> OnlyEmpties(s, StartWifiStep(s, l.e, l.readOk))
    ensures l.StartProvision? ==> OnlyEmpties(s, StartProvisionStep(s, l.next, l.networkBusy))
  {
  }

  lemma WriterStorable(s: Sys, l: Label)
    requires Inv(s) && Storable(s) && !IsLoop(l) && !IsStore(l) && !IsBoot(l)
    ensures Storable(Next(s, l))
  {
    match s.writer
    case Free =>
      StartsEmpty(s, l);
      if Next(s, l) != s { EmptiesStorable(s, Next(s, l)); }
    case Changing(_, _, _, _) =>
      if l.PublishChange? {
        HandsOver(s, l);
      } else {
        ChangeEmpties(s, l);
        EmptiesStorable(s, ChangeStep(s, l));
      }
    case WifiUpdate(_, _) =>
      WifiEmpties(s, l);
      EmptiesStorable(s, WifiStep(s, l));
    case Provisioning(_, _) =>
      ProvisionEmpties(s, if l.ProvisionStep? then l.w else Committed);
      if l.ProvisionStep? { EmptiesStorable(s, ProvisionWrite(s, l.w)); }
    case Storing(_, _, _) =>
  }

  lemma NextStorable(s: Sys, l: Label)
    requires Inv(s) && Storable(s)
    ensures Storable(Next(s, l))
  {
    if l.Decide? {
      if s.pc.Between? { DecideStorable(s, l.env); }
    } else if IsLoop(l) {
      LoopStorable(s, l);
    } else if IsStore(l) {
      StoreStorable(s, l);
    } else if IsBoot(l) {
      BootStorable(s, l);
    } else {
      WriterStorable(s, l);
    }
  }

  lemma {:induction false} RunStorable(s: Sys, ls: seq<Label>)
    requires Inv(s) && Storable(s)
    ensures Storable(Run(s, ls))
  {
    if ls != [] {
      RunOk(s, ls[..|ls| - 1]);
      RunStorable(s, ls[..|ls| - 1]);
      NextStorable(Run(s, ls[..|ls| - 1]), ls[|ls| - 1]);
    }
  }

  // ----- The fault -----

  lemma WriteFaultsIff(s: Sys, w: Write)
    requires Inv(s) && Storable(s) && s.writer.Storing? && !s.faulted && !s.disk.auto.Unreadable? && w.Seen()
    ensures WriteStep(s, true, true, w).faulted <==> s.writer.act == ToKeep && s.writer.req.config.disabled
  {
  }

  /** With a store that can be read and written, the worker raises the fault exactly when it holds a
      request to keep a decision that it read while a command was in progress, whose settings have been
      applied since: in any run from the first boot. */
  lemma StoreFaultsIff(profile: Option<Config>, marked: bool, seed: nat, start: int, ls: seq<Label>, w: Write)
    requires var s := Run(Init(profile, marked, seed, start), ls);
             s.writer.Storing? && !s.faulted && !s.disk.auto.Unreadable? && w.Seen()
    ensures var s := Run(Init(profile, marked, seed, start), ls);
            Next(s, WriteStore(true, true, w)).faulted <==> s.writer.act == ToKeep && s.writer.req.config.disabled
  {
    var s0 := Init(profile, marked, seed, start);
    InitOk(profile, marked, seed, start);
    RunOk(s0, ls);
    RunStorable(s0, ls);
    WriteFaultsIff(Run(s0, ls), w);
  }

  // ----- A run that gets there -----

  /** An iteration that sees nothing. */
  lemma QuietRound(s: Sys, c: Config)
    requires Live(c) && HandedOver(s, c, 1) && s.worker == Resting
    ensures var t := Run(s, Round(Sees(0, [], 0)));
            Idle(t, c, 1) && t.Snap().decision.autoState == Unknown && t.worker == Resting && t.disk == s.disk
  {
    ThreeSteps(s, Take, Decide(Sees(0, [], 0)), Publish(false, true));
    var s1 := Next(s, Take);
    TakesSettings(s.policy, c, 1, s1.pc.t.off);
    var p := (if s1.pc.t.off then s.policy.Off(1, 0) else s.policy).Configure(c, 1, 0).Restore(Unknown, 0);
    assert Pass(s1.policy, s1.pc.t, Sees(0, [], 0), false) == p;
    assert !p.home && p.autoState == Unknown;
  }

  lemma AskGoes(s: Sys, c: Config)
    requires Live(c) && Commanded(s, c) && s.worker == Resting
    ensures Next(s, AskStore) == s.(worker := Asking(Found(s)))
  {
  }

  lemma TakeThenCheck(s: Sys, c: Config)
    requires Live(c) && s.pc == Top && s.writer == Free && !s.faulted && !s.provisioning && !s.disk.auto.Unreadable?
    requires s.shared.epoch == 2 && s.shared.Applies() && s.shared.newConfig == c && s.shared.restored == Unknown
    requires s.worker.Asking? && s.worker.req.gen == 2 && s.worker.req.state == Unknown && s.worker.req.config.disabled
    ensures var t := Next(Next(s, Take), CheckStore);
            && t.writer.Storing? && t.writer.act == ToKeep && t.writer.req.config.disabled
            && !t.faulted && !t.disk.auto.Unreadable?
  {
  }

  /** AUTO is commanded, and the worker reads the decision. */
  function AskedFirst(c: Config): seq<Label> {
    BOOT + Round(Sees(0, [], 0)) + [InhibitCurrent(1, false, Auto)] + [AskStore]
  }

  /** While the worker waits for the mutex AUTO is written and handed over, and the loop applies it. */
  function SettingsFirst(c: Config): seq<Label> { AskedFirst(c) + WriterSteps(2) + [Take] + [CheckStore] }

  lemma AskedGoes(c: Config)
    requires Live(c)
    ensures var s := Run(Init(Some(c), false, 1, 0), AskedFirst(c));
            && Commanded(s, c) && s.pc == Top && s.worker.Asking?
            && s.worker.req.gen == 2 && s.worker.req.state == Unknown && s.worker.req.config.disabled
  {
    var s0, one := Init(Some(c), false, 1, 0), BOOT + Round(Sees(0, [], 0));
    BootGoes(c);
    RunThen(s0, BOOT, Round(Sees(0, [], 0)));
    QuietRound(Booted(c), c);
    RunOne(s0, one, InhibitCurrent(1, false, Auto));
    CommandGoes(Run(s0, one), c);
    RunOne(s0, one + [InhibitCurrent(1, false, Auto)], AskStore);
    AskGoes(Run(s0, one + [InhibitCurrent(1, false, Auto)]), c);
  }

  /** For any settings that use saved decisions: the next write, though nothing fails, raises the fault. */
  lemma StoreCanFault(c: Config)
    requires Live(c)
    ensures var s := Run(Init(Some(c), false, 1, 0), SettingsFirst(c));
            && s.writer.Storing? && !s.faulted && !s.disk.auto.Unreadable?
            && Next(s, WriteStore(true, true, Committed)).faulted
  {
    var s0, asked := Init(Some(c), false, 1, 0), AskedFirst(c);
    AskedGoes(c);
    RunThen(s0, asked, WriterSteps(2));
    ChangeGoes(Run(s0, asked), c);
    RunOne(s0, asked + WriterSteps(2), Take);
    RunOne(s0, asked + WriterSteps(2) + [Take], CheckStore);
    TakeThenCheck(Run(s0, asked + WriterSteps(2)), c);
    StoreFaultsIff(Some(c), false, 1, 0, SettingsFirst(c), Committed);
  }
}
