/** The safety results of the control protocol, over every run from the first boot. */
module ControlResults {
  import opened Wrappers
  import opened Settings
  import opened Errors
  import opened AutoJournals
  import opened PolicyModel
  import opened SharedState
  import opened ControlSystem
  import opened ControlProofs
  import E = Epochs

  // ----- OFF -----

  /** A command other than OFF begins: `ControlEpoch::begin` succeeds for it. */
  predicate Begins(s: Sys, l: Label) {
    l.InhibitCurrent? && l.change != Disable && s.CanIssue() &&
    s.shared.InhibitCurrent(l.expected, s.provisioning, l.busy).1
  }

  /** `inhibit` or `begin_provision` takes effect. */
  predicate SwitchesOff(s: Sys, l: Label) {
    s.CanIssue() && (l.Inhibit? || (l.BeginProvision? && s.shared.BeginProvision(l.expected, l.busy).1))
  }

  /** `change_config(Disabled, e)` returns true. */
  predicate AcknowledgesOff(s: Sys, l: Label) {
    l.PublishChange? && s.writer.Changing? && s.writer.stage == ToPublish && s.writer.change == Disable &&
    s.shared.Matches(s.writer.epoch)
  }

  /** The control loop hands its settings to the policy. */
  predicate Applies(s: Sys, l: Label) { l.Take? && s.pc.Top? && s.shared.Applies() }

  /** The control task commands the relay ON. */
  predicate CommandsOn(s: Sys, l: Label) { l.Publish? && s.pc.Deciding? && Next(s, l).gpio }

  /** What the writers, the storage worker and boot leave to the control loop and the commands. */
  predicate LoopUntouched(s: Sys, t: Sys) {
    && t.pc == s.pc && t.policy == s.policy && t.Snap().inhibited == s.Snap().inhibited
    && t.off == s.off && (s.acked ==> t.acked)
    && t.gpio == s.gpio && t.shared.forcedOff == s.shared.forcedOff
    && t.provisioning == s.provisioning && (s.faulted ==> t.faulted)
  }

  lemma AutoWritesLeaveLoop(s: Sys, slot: Slot, next: Writer)
    ensures LoopUntouched(s, s.SetAuto(slot)) && LoopUntouched(s, s.SetAuto(slot).(writer := next))
    ensures LoopUntouched(s, s.SetAuto(slot).FailWrite())
  {
  }

  lemma ProfileWritesLeaveLoop(s: Sys, p: Config, w: Write, next: Writer)
    ensures LoopUntouched(s, s.SetProfile(p, w)) && LoopUntouched(s, s.SetProfile(p, w).(writer := next))
    ensures LoopUntouched(s, s.SetProfile(p, w).FailWrite())
  {
  }

  lemma ChangeLeavesLoop(s: Sys, l: Label)
    requires s.writer.Changing?
    ensures LoopUntouched(s, ChangeStep(s, l))
  {
    var wr := s.writer;
    match (l, wr.stage)
    case (ClearForChange(ok, w), ToClear) =>
      AutoWritesLeaveLoop(s, Clear(s.disk.auto, ok, w).0, wr.(stage := ToSave));
    case (SaveChange(w), ToSave) => ProfileWritesLeaveLoop(s, wr.p, w, wr.(stage := ToCheck));
    case (ResaveChange(w), ToResave) => ProfileWritesLeaveLoop(s, wr.p, w, Free);
    case _ =>
  }

  lemma WifiLeavesLoop(s: Sys, l: Label)
    requires s.writer.WifiUpdate?
    ensures LoopUntouched(s, WifiStep(s, l))
  {
    match l
    case ClearForWifi(ok, w) => AutoWritesLeaveLoop(s, Clear(s.disk.auto, ok, w).0, s.writer.(cleared := true));
    case SaveWifi(w) => ProfileWritesLeaveLoop(s, s.writer.p, w, Free);
    case _ =>
  }

  lemma EffectLeavesLoop(s: Sys, w: Write)
    requires s.writer.Provisioning?
    ensures LoopUntouched(s, ProvisionEffect(s, w))
  {
    match s.writer.step
    case 1 => AutoWritesLeaveLoop(s, Put(s.disk.auto, EMPTY, w), s.writer);
    case 3 => ProfileWritesLeaveLoop(s, s.writer.next, w, s.writer);
    case _ =>
  }

  lemma MovingOnLeavesLoop(s: Sys, t: Sys, next: Writer)
    requires LoopUntouched(s, t)
    ensures LoopUntouched(s, t.(writer := next)) && LoopUntouched(s, t.FailWrite())
  {
  }

  lemma ProvisionLeavesLoop(s: Sys, w: Write)
    requires s.writer.Provisioning?
    ensures LoopUntouched(s, ProvisionWrite(s, w))
  {
    EffectLeavesLoop(s, w);
    MovingOnLeavesLoop(s, ProvisionEffect(s, w), Free);
    MovingOnLeavesLoop(s, ProvisionEffect(s, w), s.writer.(step := s.writer.step + 1));
  }

  lemma StartsLeaveLoop(s: Sys, l: Label)
    requires s.writer.Free?
    ensures l.StartChange? && l.e in s.jobs ==> LoopUntouched(s, StartChangeStep(s, l.e, l.readOk))
    ensures l.StartWifi? ==> LoopUntouched(s, StartWifiStep(s, l.e, l.readOk))
    ensures l.StartProvision? ==> LoopUntouched(s, StartProvisionStep(s, l.next, l.networkBusy))
  {
  }

  lemma WriteLeavesLoop(s: Sys, readOk: bool, profileOk: bool, w: Write)
    requires s.writer.Storing?
    ensures LoopUntouched(s, WriteStep(s, readOk, profileOk, w))
  {
  }

  lemma AskLeavesLoop(s: Sys)
    ensures LoopUntouched(s, AskStep(s))
    ensures s.worker.Asking? && s.writer.Free? ==> LoopUntouched(s, CheckStep(s))
    ensures s.worker.Acking? ==> LoopUntouched(s, AckStep(s))
  {
  }

  lemma StoreLeavesLoop(s: Sys, l: Label)
    requires IsStore(l)
    ensures LoopUntouched(s, Next(s, l))
  {
    AskLeavesLoop(s);
    if l.WriteStore? && s.writer.Storing? {
      WriteLeavesLoop(s, l.readOk, l.profileOk, l.w);
    }
  }

  lemma RecoverLeavesLoop(s: Sys, l: Label)
    requires l.RecoverDecision? && s.setup.LoadedProfile?
    ensures LoopUntouched(s, RecoverStep(s, l.allow, l.tokens, l.readOk, l.clearOk, l.w))
  {
    RecoverStepIs(s, l.allow, l.tokens, l.readOk, l.clearOk, l.w);
  }

  lemma LoadLeavesLoop(s: Sys, readOk: bool)
    ensures LoopUntouched(s, LoadProfileStep(s, readOk))
    ensures s.setup.Recovered? ==> LoopUntouched(s, FinishStep(s))
  {
  }

  lemma BootLeavesLoop(s: Sys, l: Label)
    requires IsBoot(l)
    ensures LoopUntouched(s, Next(s, l))
  {
    match l
    case RecoverDecision(_, _, _, _, _) => if s.setup.LoadedProfile? { RecoverLeavesLoop(s, l); }
    case LoadProfile(readOk) => LoadLeavesLoop(s, readOk);
    case FinishSetup => LoadLeavesLoop(s, true);
  }

  lemma WorkLeavesLoop(s: Sys, l: Label)
    requires !IsLoop(l)
    ensures LoopUntouched(s, Next(s, l))
  {
    if IsBoot(l) {
      BootLeavesLoop(s, l);
    } else if IsStore(l) {
      StoreLeavesLoop(s, l);
    } else {
      match s.writer
      case Free => StartsLeaveLoop(s, l);
      case Changing(_, _, _, _) => ChangeLeavesLoop(s, l);
      case WifiUpdate(_, _) => WifiLeavesLoop(s, l);
      case Provisioning(_, _) => if l.ProvisionStep? { ProvisionLeavesLoop(s, l.w); }
      case Storing(_, _, _) =>
    }
  }

  lemma LoopKeepsOff(s: Sys, l: Label)
    requires Inv(s) && IsLoop(l) && !Begins(s, l)
    ensures s.acked ==> Next(s, l).acked
    ensures s.off && !l.Crash? ==> Next(s, l).off
  {
  }

  lemma OffStays(s: Sys, l: Label)
    requires Inv(s) && !Begins(s, l)
    ensures s.acked ==> Next(s, l).acked
    ensures s.off && !l.Crash? ==> Next(s, l).off
  {
    if IsLoop(l) {
      LoopKeepsOff(s, l);
    } else {
      WorkLeavesLoop(s, l);
    }
  }

  lemma OnNeedsConsent(s: Sys, l: Label)
    requires Inv(s) && CommandsOn(s, l)
    ensures !s.off && !s.Snap().inhibited && !s.faulted && !s.provisioning
    ensures s.Snap().config == s.policy.gate.config && s.Snap().config.commissioned && !s.Snap().config.disabled
  {
  }

  lemma {:induction false} AckStays(s: Sys, ls: seq<Label>)
    requires Inv(s) && s.acked
    requires forall i | 0 <= i < |ls| :: !Begins(Run(s, ls[..i]), ls[i])
    ensures Run(s, ls).acked
  {
    if ls != [] {
      var init := ls[..|ls| - 1];
      assert forall i | 0 <= i < |init| :: init[..i] == ls[..i];
      AckStays(s, init);
      RunOk(s, init);
      OffStays(Run(s, init), ls[|ls| - 1]);
    }
  }

  lemma AckIsRecorded(s: Sys, ack: Label)
    requires AcknowledgesOff(s, ack)
    ensures Next(s, ack).acked
  {
    assert Next(s, ack) == ChangeStep(s, ack);
  }

  /** Once an OFF is acknowledged, whatever the writers, the storage worker, provisioning, crashes
      and reboots do, the durable profile stays disabled and the relay is never commanded ON, until
      some later command begins. */
  lemma AcknowledgedOffSurvives(s: Sys, ack: Label, ls: seq<Label>, last: Label)
    requires Inv(s) && AcknowledgesOff(s, ack)
    requires forall i | 0 <= i < |ls| :: !Begins(Run(Next(s, ack), ls[..i]), ls[i])
    ensures var u := Run(Next(s, ack), ls);
            && u.disk.profile.Some? && u.disk.profile.value.disabled
            && !CommandsOn(u, last)
  {
    NextOk(s, ack);
    AckIsRecorded(s, ack);
    AckStays(Next(s, ack), ls);
    RunOk(Next(s, ack), ls);
    var u := Run(Next(s, ack), ls);
    if CommandsOn(u, last) {
      OnNeedsConsent(u, last);
    }
  }

  // ----- OFF dominates in RAM -----

  lemma OffEndsByABegin(s: Sys, l: Label)
    requires Inv(s) && s.off && !Next(s, l).off && !l.Crash?
    ensures Begins(s, l)
  {
    if !Begins(s, l) {
      OffStays(s, l);
    }
  }

  lemma {:induction false} OffUntilABegin(s: Sys, ls: seq<Label>) returns (j: nat)
    requires Inv(s) && s.off && !Run(s, ls).off
    requires forall i | 0 <= i < |ls| :: !ls[i].Crash?
    ensures j < |ls| && Begins(Run(s, ls[..j]), ls[j])
  {
    var init := ls[..|ls| - 1];
    if Run(s, init).off {
      j := |ls| - 1;
      RunOk(s, init);
      OffEndsByABegin(Run(s, init), ls[j]);
    } else {
      j := OffUntilABegin(s, init);
      assert init[..j] == ls[..j];
    }
  }

  /** Inhibition is lifted only by the control loop applying the settings of the current generation. */
  lemma InhibitedStays(s: Sys, l: Label)
    requires Inv(s) && s.Snap().inhibited && !Next(s, l).Snap().inhibited
    ensures Applies(s, l)
  {
    if !IsLoop(l) {
      WorkLeavesLoop(s, l);
    }
  }

  lemma {:induction false} InhibitedUntilApplied(s: Sys, ls: seq<Label>) returns (i: nat)
    requires Inv(s) && s.Snap().inhibited && !Run(s, ls).Snap().inhibited
    ensures i < |ls| && Applies(Run(s, ls[..i]), ls[i])
  {
    var init := ls[..|ls| - 1];
    if Run(s, init).Snap().inhibited {
      i := |ls| - 1;
      RunOk(s, init);
      InhibitedStays(Run(s, init), ls[i]);
    } else {
      i := InhibitedUntilApplied(s, init);
      assert init[..i] == ls[..i];
    }
  }

  lemma RunOne(s: Sys, ls: seq<Label>, l: Label)
    ensures Run(s, ls + [l]) == Next(Run(s, ls), l)
  {
    assert (ls + [l])[..|ls|] == ls;
  }

  lemma Slices(ls: seq<Label>, j: nat, k: nat)
    requires j + 1 < k <= |ls|
    ensures ls[..k] == ls[..k - 1] + [ls[k - 1]] && ls[j + 1..k] == ls[j + 1..k - 1] + [ls[k - 1]]
  {
  }

  lemma {:induction false} RunSplits(s: Sys, ls: seq<Label>, j: nat, k: nat)
    requires j < k <= |ls|
    ensures Run(s, ls[..k]) == Run(Next(Run(s, ls[..j]), ls[j]), ls[j + 1..k])
  {
    if k == j + 1 {
      assert ls[j + 1..k] == [] && ls[..k] == ls[..j] + [ls[j]];
      RunOne(s, ls[..j], ls[j]);
    } else {
      Slices(ls, j, k);
      RunSplits(s, ls, j, k - 1);
      RunOne(s, ls[..k - 1], ls[k - 1]);
      RunOne(Next(Run(s, ls[..j]), ls[j]), ls[j + 1..k - 1], ls[k - 1]);
    }
  }

  lemma AppliedAfterBegin(t: Sys, ls: seq<Label>, j: nat) returns (i: nat)
    requires Inv(t) && j < |ls| && Begins(Run(t, ls[..j]), ls[j]) && !Run(t, ls).Snap().inhibited
    ensures j < i < |ls| && Applies(Run(t, ls[..i]), ls[i])
  {
    var b, rest := Run(t, ls[..j]), ls[j + 1..];
    RunOk(t, ls[..j]);
    NextOk(b, ls[j]);
    assert ls[..|ls|] == ls && ls[j + 1..|ls|] == rest;
    RunSplits(t, ls, j, |ls|);
    var k := InhibitedUntilApplied(Next(b, ls[j]), rest);
    i := j + 1 + k;
    assert rest[..k] == ls[j + 1..i];
    RunSplits(t, ls, j, i);
  }

  /** After OFF (or the start of provisioning) returns, no control iteration already running or
      later commands ON in this boot, unless another command has begun since and its settings have
      then been applied: no older settings, timed request or observation can bring the output back. */
  lemma OffDominates(s: Sys, off: Label, ls: seq<Label>, last: Label)
    requires Inv(s) && SwitchesOff(s, off) && (forall i | 0 <= i < |ls| :: !ls[i].Crash?)
    requires CommandsOn(Run(Next(s, off), ls), last)
    ensures exists j, i :: 0 <= j < i < |ls| && Begins(Run(Next(s, off), ls[..j]), ls[j])
              && Applies(Run(Next(s, off), ls[..i]), ls[i])
  {
    var t := Next(s, off);
    NextOk(s, off);
    RunOk(t, ls);
    OnNeedsConsent(Run(t, ls), last);
    var j := OffUntilABegin(t, ls);
    var i := AppliedAfterBegin(t, ls, j);
  }

  // ----- Boot restore -----

  /** A durable profile write that may have committed: OFF, a mode or settings change, a Wi-Fi
      update or provisioning. */
  predicate WritesProfile(s: Sys, l: Label) {
    match l
    case SaveChange(w) => s.writer.Changing? && s.writer.stage == ToSave && w.Lands()
    case ResaveChange(w) => s.writer.Changing? && s.writer.stage == ToResave && w.Lands()
    case SaveWifi(w) => s.writer.WifiUpdate? && s.writer.cleared && w.Lands()
    case ProvisionStep(w) => s.writer.Provisioning? && s.writer.step == 3 && w.Lands()
    case _ => false
  }

  /** Holding the mutex, the storage worker finds Home published by a policy running under `c`. */
  predicate FindsHome(s: Sys, l: Label, c: Config) {
    && l.CheckStore? && s.worker.Asking? && s.writer.Free?
    && s.decidedBy == Some(c) && s.Snap().config == c && !s.Snap().inhibited && s.Snap().decision.autoState == Home
  }

  /** The storage worker writes a Home that it found published by a policy running under `c`. */
  predicate WritesHome(s: Sys, l: Label, c: Config) {
    && l.WriteStore? && l.w.Lands() && KeepsHome(s, c)
    && Next(s, l).disk.auto.Stored? && Next(s, l).disk.auto.rec.binding == Some(c)
    && Next(s, l).disk.auto.rec.state == Home
  }

  predicate KeepsHome(s: Sys, c: Config) {
    && s.writer.Storing? && s.writer.act == ToKeep && s.writer.req.state == Home && s.writer.req.config == c
    && s.writer.under == Some(c) && !c.disabled
  }

  /** A step that touches neither the profile nor the stored decision. */
  predicate KeepsRoot(s: Sys, t: Sys) { t.root == s.root && t.disk == s.disk }

  lemma LoopKeepsRoot(s: Sys, l: Label)
    requires IsLoop(l)
    ensures KeepsRoot(s, Next(s, l))
  {
  }

  predicate OnlyForgets(s: Sys, l: Label, t: Sys) { t.root == None || (t.root == s.root && !WritesProfile(s, l)) }

  lemma ClearOnlyForgets(s: Sys, readOk: bool, w: Write)
    ensures var t := s.SetAuto(Clear(s.disk.auto, readOk, w).0);
            t.root == s.root || t.root == None
  {
    ClearedIsForgotten(s.disk.auto, readOk, w, FACTORY);
  }

  lemma ChangeOnlyForgets(s: Sys, l: Label)
    requires s.writer.Changing?
    ensures OnlyForgets(s, l, ChangeStep(s, l))
  {
    if l.ClearForChange? {
      ClearOnlyForgets(s, l.readOk, l.w);
    }
  }

  lemma WifiOnlyForgets(s: Sys, l: Label)
    requires s.writer.WifiUpdate?
    ensures OnlyForgets(s, l, WifiStep(s, l))
  {
    if l.ClearForWifi? {
      ClearOnlyForgets(s, l.readOk, l.w);
    }
  }

  lemma EffectOnlyForgets(s: Sys, l: Label)
    requires s.writer.Provisioning? && l.ProvisionStep?
    ensures OnlyForgets(s, l, ProvisionEffect(s, l.w))
  {
  }

  lemma ProvisionOnlyForgets(s: Sys, l: Label)
    requires s.writer.Provisioning? && l.ProvisionStep?
    ensures OnlyForgets(s, l, ProvisionWrite(s, l.w))
  {
    EffectOnlyForgets(s, l);
    assert ProvisionWrite(s, l.w).root == ProvisionEffect(s, l.w).root;
  }

  lemma StartsForgetNothing(s: Sys, l: Label)
    requires s.writer.Free?
    ensures l.StartChange? && l.e in s.jobs ==> StartChangeStep(s, l.e, l.readOk).root == s.root
    ensures l.StartWifi? ==> StartWifiStep(s, l.e, l.readOk).root == s.root
    ensures l.StartProvision? ==> StartProvisionStep(s, l.next, l.networkBusy).root == s.root
  {
  }

  lemma WritersOnlyForget(s: Sys, l: Label)
    requires !IsLoop(l) && !IsBoot(l) && !IsStore(l)
    ensures OnlyForgets(s, l, Next(s, l))
  {
    if s.writer.Free? {
      StartsForgetNothing(s, l);
    } else if s.writer.Changing? {
      ChangeOnlyForgets(s, l);
    } else if s.writer.WifiUpdate? {
      WifiOnlyForgets(s, l);
    } else if s.writer.Provisioning? && l.ProvisionStep? {
      ProvisionOnlyForgets(s, l);
    }
  }

  lemma RecoverOnlyForgets(s: Sys, allow: bool, tokens: Tokens, readOk: bool, clearOk: bool, w: Write, c: Config)
    requires s.setup.LoadedProfile? && RecoverStep(s, allow, tokens, readOk, clearOk, w).root == Some(c)
    ensures s.root == Some(c)
  {
    RecoverIsCautious(s.disk.auto, readOk, s.setup.c, allow, tokens, clearOk, w);
    RecoverStepIs(s, allow, tokens, readOk, clearOk, w);
  }

  lemma BootOnlyForgets(s: Sys, l: Label, c: Config)
    requires IsBoot(l) && Next(s, l).root == Some(c)
    ensures s.root == Some(c)
  {
    match l
    case RecoverDecision(allow, tokens, readOk, clearOk, w) =>
      if s.setup.LoadedProfile? && s.writer.Free? {
        RecoverOnlyForgets(s, allow, tokens, readOk, clearOk, w, c);
      }
    case _ =>
  }

  lemma WriteEarnsRoot(s: Sys, l: Label, c: Config)
    requires Inv(s) && l.WriteStore? && s.writer.Storing?
    requires WriteStep(s, l.readOk, l.profileOk, l.w).root == Some(c) != s.root
    ensures KeepsHome(s, c) && l.w.Lands()
    ensures var t := WriteStep(s, l.readOk, l.profileOk, l.w);
            t.disk.auto.Stored? && t.disk.auto.rec.binding == Some(c) && t.disk.auto.rec.state == Home
  {
    ClearOnlyForgets(s, l.readOk, l.w);
    Persisted(s, l.readOk, l.profileOk, l.w);
    var (slot, e) := Persist(s, l.readOk, l.profileOk, l.w);
    assert WriteStep(s, l.readOk, l.profileOk, l.w).root == s.SetAuto(slot).root;
  }

  lemma StoreEarnsRoot(s: Sys, l: Label, c: Config)
    requires Inv(s) && IsStore(l) && Next(s, l).root == Some(c)
    ensures s.root == Some(c) || WritesHome(s, l, c)
  {
    if l.WriteStore? && s.writer.Storing? && s.root != Some(c) {
      WriteEarnsRoot(s, l, c);
    }
  }

  lemma RootStep(s: Sys, l: Label, c: Config)
    requires Inv(s) && Next(s, l).root == Some(c)
    ensures WritesHome(s, l, c) || (s.root == Some(c) && !WritesProfile(s, l))
  {
    if IsLoop(l) {
      LoopKeepsRoot(s, l);
    } else if IsStore(l) {
      StoreEarnsRoot(s, l, c);
    } else if IsBoot(l) {
      BootOnlyForgets(s, l, c);
    } else {
      WritersOnlyForget(s, l);
    }
  }

  /** After step `i` no profile has been written and the durable Home has stayed that of `c`. */
  predicate Undisturbed(s: Sys, ls: seq<Label>, i: nat, c: Config) {
    && (forall j | i < j < |ls| :: !WritesProfile(Run(s, ls[..j]), ls[j]))
    && (forall j | i < j <= |ls| :: Run(s, ls[..j]).root == Some(c))
  }

  lemma Prefixes<T>(xs: seq<T>, x: T, j: nat)
    requires j <= |xs|
    ensures (xs + [x])[..j] == xs[..j] && (j < |xs| ==> (xs + [x])[j] == xs[j])
  {
  }

  lemma UndisturbedMore(s: Sys, ls: seq<Label>, l: Label, i: nat, c: Config)
    requires i <= |ls| && (i < |ls| ==> Undisturbed(s, ls, i, c) && !WritesProfile(Run(s, ls), l))
    requires Run(s, ls + [l]).root == Some(c)
    ensures Undisturbed(s, ls + [l], i, c)
  {
    var more := ls + [l];
    forall j | i < j < |more|
      ensures !WritesProfile(Run(s, more[..j]), more[j])
    {
      Prefixes(ls, l, j);
      assert ls[..|ls|] == ls;
    }
    forall j | i < j <= |more|
      ensures Run(s, more[..j]).root == Some(c)
    {
      if j <= |ls| {
        Prefixes(ls, l, j);
      } else {
        assert more[..j] == more;
      }
    }
  }

  lemma {:induction false} RootIsEarned(s: Sys, ls: seq<Label>, c: Config) returns (i: nat)
    requires Inv(s) && s.root == None && Run(s, ls).root == Some(c)
    ensures i < |ls| && WritesHome(Run(s, ls[..i]), ls[i], c) && Undisturbed(s, ls, i, c)
  {
    var init, l := ls[..|ls| - 1], ls[|ls| - 1];
    assert ls == init + [l];
    RunOk(s, init);
    RootStep(Run(s, init), l, c);
    if WritesHome(Run(s, init), l, c) {
      i := |init|;
    } else {
      i := RootIsEarned(s, init, c);
      assert init[..i] == ls[..i];
    }
    UndisturbedMore(s, init, l, i, c);
  }

  /** While a durable Home is accounted for, the record says Home. */
  predicate Agreed(s: Sys) { s.root.Some? ==> s.disk.auto.Stored? && s.disk.auto.rec.state == Home }

  lemma SetAutoAgrees(s: Sys, slot: Slot)
    requires Agreed(s)
    ensures Agreed(s.SetAuto(slot))
  {
  }

  lemma ChangeAgrees(s: Sys, l: Label)
    requires s.writer.Changing? && Agreed(s)
    ensures Agreed(ChangeStep(s, l))
  {
    if l.ClearForChange? {
      SetAutoAgrees(s, Clear(s.disk.auto, l.readOk, l.w).0);
    }
  }

  lemma WifiAgrees(s: Sys, l: Label)
    requires s.writer.WifiUpdate? && Agreed(s)
    ensures Agreed(WifiStep(s, l))
  {
    if l.ClearForWifi? {
      SetAutoAgrees(s, Clear(s.disk.auto, l.readOk, l.w).0);
    }
  }

  lemma ProvisionAgrees(s: Sys, w: Write)
    requires s.writer.Provisioning? && Agreed(s)
    ensures Agreed(ProvisionWrite(s, w))
  {
    EffectAgrees(s, w);
    var t := ProvisionEffect(s, w);
    assert ProvisionWrite(s, w).root == t.root && ProvisionWrite(s, w).disk == t.disk;
  }

  lemma EffectAgrees(s: Sys, w: Write)
    requires s.writer.Provisioning? && Agreed(s)
    ensures Agreed(ProvisionEffect(s, w))
  {
    SetAutoAgrees(s, Put(s.disk.auto, EMPTY, w));
  }

  lemma WriteAgrees(s: Sys, readOk: bool, profileOk: bool, w: Write)
    requires s.writer.Storing? && Agreed(s)
    ensures Agreed(WriteStep(s, readOk, profileOk, w))
  {
    var slot := Persist(s, readOk, profileOk, w).0;
    SetAutoAgrees(s, slot);
    var t := WriteStep(s, readOk, profileOk, w);
    assert t.root == s.SetAuto(slot).root && t.disk == s.SetAuto(slot).disk;
  }

  lemma StoreAgrees(s: Sys, l: Label)
    requires IsStore(l) && Agreed(s)
    ensures Agreed(Next(s, l))
  {
    if l.WriteStore? && s.writer.Storing? {
      WriteAgrees(s, l.readOk, l.profileOk, l.w);
    }
  }

  lemma RecoverAgrees(s: Sys, allow: bool, tokens: Tokens, readOk: bool, clearOk: bool, w: Write)
    requires s.setup.LoadedProfile? && Agreed(s)
    ensures Agreed(RecoverStep(s, allow, tokens, readOk, clearOk, w))
  {
    SetAutoAgrees(s, Recover(s.disk.auto, readOk, s.setup.c, allow, tokens, clearOk, w).0);
    RecoverStepIs(s, allow, tokens, readOk, clearOk, w);
  }

  lemma StepAgrees(s: Sys, l: Label)
    requires Agreed(s)
    ensures Agreed(Next(s, l))
  {
    if IsLoop(l) {
      LoopKeepsRoot(s, l);
    } else if IsStore(l) {
      StoreAgrees(s, l);
    } else {
      match l
      case RecoverDecision(allow, tokens, readOk, clearOk, w) =>
        if s.setup.LoadedProfile? {
          RecoverAgrees(s, allow, tokens, readOk, clearOk, w);
        }
      case ProvisionStep(w) =>
        if s.writer.Provisioning? {
          ProvisionAgrees(s, w);
        }
      case _ => OtherAgrees(s, l);
    }
  }

  lemma OtherAgrees(s: Sys, l: Label)
    requires Agreed(s) && !IsLoop(l) && !IsStore(l) && !l.RecoverDecision? && !l.ProvisionStep?
    ensures Agreed(Next(s, l))
  {
    if s.writer.Changing? {
      ChangeAgrees(s, l);
    } else if s.writer.WifiUpdate? {
      WifiAgrees(s, l);
    } else if s.writer.Free? {
      StartsKeepDisk(s, l);
    }
  }

  lemma StartsKeepDisk(s: Sys, l: Label)
    requires s.writer.Free?
    ensures l.StartChange? && l.e in s.jobs ==> KeepsRoot(s, StartChangeStep(s, l.e, l.readOk))
    ensures l.StartWifi? ==> KeepsRoot(s, StartWifiStep(s, l.e, l.readOk))
    ensures l.StartProvision? ==> KeepsRoot(s, StartProvisionStep(s, l.next, l.networkBusy))
  {
  }

  lemma {:induction false} RunAgrees(s: Sys, ls: seq<Label>)
    requires Agreed(s)
    ensures Agreed(Run(s, ls))
  {
    if ls != [] {
      RunAgrees(s, ls[..|ls| - 1]);
      StepAgrees(Run(s, ls[..|ls| - 1]), ls[|ls| - 1]);
    }
  }

  lemma LoopKeepsWriter(s: Sys, l: Label)
    requires (IsLoop(l) && !l.Crash?) || IsBoot(l)
    ensures Next(s, l).writer == s.writer
  {
  }

  lemma WritersDoNotStore(s: Sys, l: Label)
    requires !IsLoop(l) && !IsBoot(l) && !IsStore(l) && Next(s, l).writer.Storing?
    ensures Next(s, l).writer == s.writer
  {
  }

  lemma HolderMoves(s: Sys, l: Label)
    requires Next(s, l).writer.Storing? && Next(s, l).writer != s.writer
    ensures l.CheckStore? && s.worker.Asking? && s.writer.Free? && Next(s, l) == CheckStep(s)
  {
    if (IsLoop(l) && !l.Crash?) || IsBoot(l) {
      LoopKeepsWriter(s, l);
    } else if !IsStore(l) && !l.Crash? {
      WritersDoNotStore(s, l);
    }
  }

  lemma HomeIsFound(s: Sys, l: Label, c: Config)
    requires Inv(s) && l.CheckStore? && s.worker.Asking? && s.writer.Free? && KeepsHome(CheckStep(s), c)
    ensures FindsHome(s, l, c)
  {
  }

  /** A worker that writes Home found it published, and has held the mutex since. */
  lemma {:induction false} WriterFoundHome(s: Sys, ls: seq<Label>, c: Config) returns (k: nat)
    requires Inv(s) && !s.writer.Storing? && KeepsHome(Run(s, ls), c)
    ensures k < |ls| && FindsHome(Run(s, ls[..k]), ls[k], c)
    ensures forall j | k < j <= |ls| :: Run(s, ls[..j]).writer == Run(s, ls).writer
  {
    assert ls[..|ls|] == ls;
    var init, l := ls[..|ls| - 1], ls[|ls| - 1];
    var u := Run(s, init);
    if u.writer == Next(u, l).writer {
      k := WriterFoundHome(s, init, c);
      assert forall j | 0 <= j <= |init| :: init[..j] == ls[..j];
    } else {
      k := |init|;
      RunOk(s, init);
      HolderMoves(u, l);
      HomeIsFound(u, l, c);
    }
  }

  /** The worker held the mutex from its check at step `k` to its write at step `i`. */
  predicate HeldMutex(s: Sys, ls: seq<Label>, k: nat, i: nat)
    requires i < |ls|
  {
    forall j | k < j <= i :: Run(s, ls[..j]).writer.Storing?
  }

  predicate ProfileUnwritten(s: Sys, ls: seq<Label>, k: nat) {
    forall j | k < j < |ls| :: !WritesProfile(Run(s, ls[..j]), ls[j])
  }

  predicate RecordSaysHome(s: Sys, ls: seq<Label>, i: nat) {
    forall j | i < j <= |ls| ::
      Run(s, ls[..j]).disk.auto.Stored? && Run(s, ls[..j]).disk.auto.rec.state == Home
  }

  lemma MutexWasHeld(s: Sys, ls: seq<Label>, i: nat, c: Config) returns (k: nat)
    requires Inv(s) && !s.writer.Storing? && i < |ls| && KeepsHome(Run(s, ls[..i]), c)
    ensures k < i && FindsHome(Run(s, ls[..k]), ls[k], c) && HeldMutex(s, ls, k, i)
  {
    k := WriterFoundHome(s, ls[..i], c);
    assert forall j | 0 <= j <= i :: ls[..i][..j] == ls[..j];
  }

  lemma RecordSaidHome(s: Sys, ls: seq<Label>, i: nat, c: Config)
    requires Agreed(s) && Undisturbed(s, ls, i, c)
    ensures RecordSaysHome(s, ls, i)
  {
    forall j | i < j <= |ls|
      ensures Run(s, ls[..j]).disk.auto.Stored? && Run(s, ls[..j]).disk.auto.rec.state == Home
    {
      RunAgrees(s, ls[..j]);
    }
  }

  /** A boot restores Home under settings `c` only if, in this boot or an earlier one, the storage
      worker took the mutex at a step `k`, found Home published by a policy running under `c`, and wrote
      it at a step `i` without having let the mutex go; since step `k` no OFF, mode, settings, Wi-Fi or
      provisioning change has written its profile, whatever crashed in between; the durable record has
      said Home since step `i`. */
  lemma BootRestoreIsSound(profile: Option<Config>, marked: bool, seed: nat, start: int, ls: seq<Label>,
                           allow: bool, tokens: Tokens, readOk: bool, clearOk: bool, w: Write)
    returns (k: nat, i: nat)
    requires var s := Run(Init(profile, marked, seed, start), ls);
             && s.setup.LoadedProfile?
             && Recover(s.disk.auto, readOk, s.setup.c, allow, tokens, clearOk, w).1.state == Home
    ensures k < i < |ls|
    ensures var s0 := Init(profile, marked, seed, start);
            var c := Run(s0, ls).setup.c;
            && FindsHome(Run(s0, ls[..k]), ls[k], c) && WritesHome(Run(s0, ls[..i]), ls[i], c)
            && HeldMutex(s0, ls, k, i) && ProfileUnwritten(s0, ls, k) && RecordSaysHome(s0, ls, i)
  {
    var s0 := Init(profile, marked, seed, start);
    var s := Run(s0, ls);
    InitOk(profile, marked, seed, start);
    RunOk(s0, ls);
    RecoverIsCautious(s.disk.auto, readOk, s.setup.c, allow, tokens, clearOk, w);
    i := RootIsEarned(s0, ls, s.setup.c);
    k := MutexWasHeld(s0, ls, i, s.setup.c);
    RecordSaidHome(s0, ls, i, s.setup.c);
  }

  // ----- The HOME commit gate -----

  lemma GateWhenOn(s: Sys, l: Label)
    requires Inv(s) && CommandsOn(s, l) && s.Snap().config.Holds() && !s.pc.d.timed
    ensures s.pc.fair
  {
  }

  lemma {:induction false} GateWasRead(s: Sys, ls: seq<Label>) returns (i: nat)
    requires Inv(s) && !s.pc.Deciding? && Run(s, ls).pc.Deciding?
    ensures i < |ls| && ls[i].Decide? && Run(s, ls[..i]).pc.Between?
    ensures Run(s, ls).pc.fair ==
              (Restorable(Run(s, ls[..i]).disk, Run(s, ls).policy.gate.config, Home) <==> Run(s, ls[..i]).Told())
    ensures forall j | i < j <= |ls| :: Run(s, ls[..j]).pc.Deciding?
  {
    assert ls[..|ls|] == ls;
    var init := ls[..|ls| - 1];
    var u, l := Run(s, init), ls[|ls| - 1];
    if l.Decide? && u.pc.Between? {
      i := |ls| - 1;
      TickKeepsGate(u, l.env);
    } else {
      PcMovesOnlyByLoop(u, l);
      i := GateWasRead(s, init);
      assert forall j | 0 <= j <= |init| :: init[..j] == ls[..j];
    }
  }

  lemma TickKeepsGate(s: Sys, env: Inputs)
    requires s.pc.Between?
    ensures var t := DecideStep(s, env);
            t.pc.Deciding? && t.pc.fair == (Restorable(s.disk, t.policy.gate.config, Home) <==> s.Told())
  {
    var p := Pass(s.policy, s.pc.t, env, env.sawFault && s.faulted);
    TickCommands(p, env.now, CommitReady(s.Snap(), p.gate.generation), env.busy);
  }

  lemma PcMovesOnlyByLoop(s: Sys, l: Label)
    requires Next(s, l).pc.Deciding? && !(l.Decide? && s.pc.Between?)
    ensures s.pc == Next(s, l).pc && s.policy == Next(s, l).policy
  {
    if !IsLoop(l) {
      WorkLeavesLoop(s, l);
    }
  }

  /** The output is not inhibited, and its settings use saved decisions. */
  predicate Enabled(s: Sys) { !s.faulted && !s.provisioning && !s.Snap().inhibited && Live(s.Snap().config) }

  lemma SavedIffTold(s: Sys)
    requires Inv(s) && Enabled(s)
    ensures s.Snap().autoSaved == Load(s.disk.auto, true, s.Snap().config).state <==> s.Told()
  {
  }

  /** In any run, the saved state that gates the output agrees with the durable record if and only if the
      storage worker is in step: no acknowledgement is outstanding, and the last one was for what had been
      written. */
  lemma SavedAgreesIffTold(profile: Option<Config>, marked: bool, seed: nat, start: int, ls: seq<Label>)
    requires Enabled(Run(Init(profile, marked, seed, start), ls))
    ensures var s := Run(Init(profile, marked, seed, start), ls);
            s.Snap().autoSaved == Load(s.disk.auto, true, s.Snap().config).state <==> s.Told()
  {
    InitOk(profile, marked, seed, start);
    RunOk(Init(profile, marked, seed, start), ls);
    SavedIffTold(Run(Init(profile, marked, seed, start), ls));
  }

  /** Under HoldLast, ON without an override is commanded only by an iteration that read whether the
      decision was committed at a step `i`; and there the durable record would have restored Home under
      the settings now in force, so that a power cut would have come back to the same decision, if and
      only if the storage worker was in step. From step `i` on the loop stands before its publication. */
  lemma HomeIsCommittedFirst(profile: Option<Config>, marked: bool, seed: nat, start: int, ls: seq<Label>, last: Label)
    requires var s := Run(Init(profile, marked, seed, start), ls);
             CommandsOn(s, last) && s.Snap().config.Holds() && !s.pc.d.timed
    ensures var s0 := Init(profile, marked, seed, start);
            exists i :: 0 <= i < |ls| && ls[i].Decide? && Run(s0, ls[..i]).pc.Between?
              && (Restorable(Run(s0, ls[..i]).disk, Run(s0, ls).Snap().config, Home) <==> Run(s0, ls[..i]).Told())
              && forall j | i < j <= |ls| :: Run(s0, ls[..j]).pc.Deciding?
  {
    var s0 := Init(profile, marked, seed, start);
    InitOk(profile, marked, seed, start);
    RunOk(s0, ls);
    OnNeedsConsent(Run(s0, ls), last);
    GateWhenOn(Run(s0, ls), last);
    var i := GateWasRead(s0, ls);
  }
}
