/** The control protocol of main/app.cpp, main/storage.cpp and main/auto_state.cpp as one transition
    system: commands and their writers, the control loop cut at its two critical sections, the
    decision-storage worker, boot, and a crash at any point. A writer, and the worker, is cut at every
    durable write and every read of the shared state. */
module ControlSystem {
  import opened Wrappers
  import opened Settings
  import opened Errors
  import opened AutoJournals
  import opened PolicyModel
  import opened SharedState
  import Epochs

  datatype Change = NewSettings(c: Config) | Disable | Auto | Arm | EnableOutput

  datatype Stage = ToClear | ToSave | ToCheck | ToResave | ToPublish

  /** The published decision as the storage worker read it, and what `persist_auto_state` makes of it
      once it holds the mutex. */
  datatype Request = Request(gen: nat, config: Config, state: AutoState, source: int)

  datatype Act = ToEmpty | ToKeep

  /** The holder of the configuration mutex. In `Storing`, `under` is history: the settings of the policy
      whose decision was published when the worker checked its request. */
  datatype Writer =
    | Free
    | Changing(change: Change, epoch: nat, p: Config, stage: Stage)
    | WifiUpdate(p: Config, cleared: bool)
    | Provisioning(next: Config, step: nat)
    | Storing(req: Request, act: Act, under: Option<Config>)

  /** Where the storage worker is. */
  datatype Worker = Resting | Asking(req: Request) | Writing | Acking(req: Request, act: Act)

  /** Whether, since settings were last applied, the last acknowledgement that mattered was taken for
      what had been written. */
  datatype Drift = InStep | Adrift

  /** Where the control task is. `fair` records, at the point `commit_ready` was read, whether the
      durable record would restore Home under the policy's settings just when the worker was in step. */
  datatype Pc = Top | Between(t: Taken) | Deciding(d: Decision, fair: bool)

  datatype Setup = Start | LoadedProfile(c: Config) | Recovered(c: Config, state: AutoState, source: int) | Done

  datatype Disk = Disk(profile: Option<Config>, marked: bool, auto: Slot)

  /** What one control iteration reads besides the shared state. `sawFault` may lag the flag. */
  datatype Inputs = Inputs(now: int, utc: int, obs: seq<(Observation, real)>, evidenceOk: bool,
                           jumped: bool, sawFault: bool, busy: bool)

  /** The last six fields are history, read by no step:
      `off`: OFF was commanded and no later command has begun; `acked`: an OFF was acknowledged and
      no later command has begun, in this boot or an earlier one; `root`: the settings under which
      `Policy` decided the Home that was the last durable decision written, if no profile has been
      committed since; `decidedBy`: the settings of the policy whose decision is published;
      `changes`: how many generations this boot has issued after `seed`; `drift`: see above. */
  datatype Sys = Sys(
    shared: Shared, faulted: bool, provisioning: bool, policy: State, pc: Pc, gpio: bool,
    writer: Writer, worker: Worker, jobs: map<nat, Change>, setup: Setup, disk: Disk, seed: nat,
    changes: nat, off: bool, acked: bool, root: Option<Config>, decidedBy: Option<Config>, drift: Drift)
  {
    function Snap(): Snapshot { shared.state }

    function Fault(): Sys { this.(faulted := true) }

    function FailWrite(): Sys { this.(faulted := true, writer := Free) }

    /** A durable decision was (perhaps) overwritten by `slot`. */
    function SetAuto(slot: Slot): Sys {
      this.(disk := disk.(auto := slot),
            root := if slot == disk.auto then root
                    else if slot.Stored? && slot.rec.state == Home && writer.Storing? then writer.under else None)
    }

    /** The worker has written this very decision and not acknowledged it. */
    predicate Unacked() { worker.Acking? && worker.act == ToKeep && worker.req.gen == shared.epoch }

    /** The saved state that gates the output can be trusted. */
    predicate Told() { drift == InStep && !Unacked() }

    function SetProfile(p: Config, w: Write): Sys {
      if w.Lands() then this.(disk := disk.(profile := Some(p)), root := None) else this
    }

    predicate ProfileReadable(readOk: bool) {
      readOk && !disk.marked && disk.profile.Some? && disk.profile.value.Valid()
    }

    predicate CanIssue() { changes + 1 < Epochs.PERIOD }
  }

  datatype Label =
    | Inhibit
    | InhibitCurrent(expected: nat, busy: bool, change: Change)
    | BeginProvision(expected: nat, busy: bool)
    | Timed(secs: nat, e: nat, busy: bool)
    | RaiseFault
    | Take
    | Decide(env: Inputs)
    | Publish(busy: bool, gpioOk: bool)
    | StartChange(e: nat, readOk: bool)
    | DropChange(e: nat)
    | ClearForChange(readOk: bool, w: Write)
    | SaveChange(w: Write)
    | CheckChange
    | ResaveChange(w: Write)
    | PublishChange
    | StartWifi(e: nat, readOk: bool)
    | ClearForWifi(readOk: bool, w: Write)
    | SaveWifi(w: Write)
    | StartProvision(next: Config, networkBusy: bool)
    | ProvisionStep(w: Write)
    | AskStore
    | CheckStore
    | WriteStore(readOk: bool, profileOk: bool, w: Write)
    | AckStore
    | LoadProfile(readOk: bool)
    | RecoverDecision(allow: bool, tokens: Tokens, readOk: bool, clearOk: bool, w: Write)
    | FinishSetup
    | Crash(seed: nat, now: int)

  // ----- The control loop -----

  function ObserveAll(p: State, obs: seq<(Observation, real)>, now: int, utc: int, ok: bool): State
    decreases |obs|
  {
    if obs == [] then p
    else ObserveAll(p.Observe(obs[0].0, obs[0].1, now, utc, ok), obs[1..], now, utc, ok)
  }

  /** Between the critical sections: what the iteration does to its policy before it ticks. */
  function Pass(p: State, t: Taken, env: Inputs, fault: bool): State {
    var p := if t.off then p.Off(t.epoch, env.now) else p;
    var p := if t.apply then p.Configure(t.c, t.epoch, env.now).Restore(t.restored, t.source) else p;
    var p := if t.override && t.timedEpoch == t.epoch then p.TimedOn(t.seconds, env.now).0 else p;
    var p := if env.jumped then p.ClockJump() else p;
    var p := if fault then p.Fault(env.now) else p;
    ObserveAll(p, env.obs, env.now, env.utc, env.evidenceOk)
  }

  function CommitReady(s: Snapshot, gen: nat): bool {
    !s.config.Holds() || (s.autoSavedGen == gen && s.autoSaved == Home)
  }

  predicate Restorable(d: Disk, c: Config, state: AutoState) {
    d.profile == Some(c) && !d.marked && Load(d.auto, true, c).state == state
  }

  function DecideStep(s: Sys, env: Inputs): Sys
    requires s.pc.Between?
  {
    var p := Pass(s.policy, s.pc.t, env, env.sawFault && s.faulted);
    var (p', d) := p.Tick(env.now, CommitReady(s.Snap(), p.gate.generation), env.busy);
    s.(policy := p', pc := Deciding(d, Restorable(s.disk, p.gate.config, Home) <==> s.Told()))
  }

  function PublishStep(s: Sys, busy: bool, gpioOk: bool): Sys
    requires s.pc.Deciding?
  {
    var sh := s.shared.Publish(s.pc.d, s.policy.gate.generation, s.faulted || s.provisioning || busy, gpioOk);
    s.(shared := sh, gpio := sh.state.decision.commanded, faulted := s.faulted || !gpioOk, pc := Top,
       decidedBy := Some(s.policy.gate.config))
  }

  // ----- Writers -----

  function Changed(change: Change, p: Config): Option<Config> {
    match change
    case NewSettings(c) => Some(c)
    case Disable => Some(p.(disabled := true))
    case Auto => Some(p.(disabled := false))
    case Arm => Some(p.(commissioned := true, disabled := true))
    case EnableOutput => if p.commissioned then Some(p.(dryRun := false, disabled := true)) else None
  }

  function StartChangeStep(s: Sys, e: nat, readOk: bool): Sys
    requires s.writer.Free? && e in s.jobs
  {
    var t := s.(jobs := s.jobs - {e});
    if e != s.shared.epoch then t
    else if !s.ProfileReadable(readOk) then t.Fault()
    else
      match Changed(s.jobs[e], s.disk.profile.value)
      case None => t.Fault()
      case Some(p) => if p.Valid() then t.(writer := Changing(s.jobs[e], e, p, ToClear)) else t.Fault()
  }

  function ChangeStep(s: Sys, l: Label): Sys
    requires s.writer.Changing?
  {
    var w := s.writer;
    match (l, w.stage)
    case (ClearForChange(readOk, wr), ToClear) =>
      var (slot, e) := Clear(s.disk.auto, readOk, wr);
      if e == NoError then s.SetAuto(slot).(writer := w.(stage := ToSave)) else s.SetAuto(slot).FailWrite()
    case (SaveChange(wr), ToSave) =>
      if wr.Seen() then s.SetProfile(w.p, wr).(writer := w.(stage := ToCheck))
      else s.SetProfile(w.p, wr).FailWrite()
    case (CheckChange, ToCheck) =>
      if s.shared.epoch == w.epoch then s.(writer := w.(stage := ToPublish))
      else s.(writer := w.(stage := ToResave, p := w.p.(disabled := true)))
    case (ResaveChange(wr), ToResave) =>
      if wr.Seen() then s.SetProfile(w.p, wr).(writer := Free) else s.SetProfile(w.p, wr).FailWrite()
    case (PublishChange, ToPublish) =>
      var (sh, ok) := s.shared.Configure(w.p, w.epoch, Unknown, 0);
      s.(shared := sh, writer := Free, acked := s.acked || (ok && w.change.Disable?))
    case _ => s
  }

  /** `update_wifi`. It does not read `provisioning` itself: its one caller, main/usb.cpp:184, gets here
      only through `stop_network` and `begin_provision`, which raised the flag for good. */
  function StartWifiStep(s: Sys, e: nat, readOk: bool): Sys
    requires s.writer.Free?
  {
    if s.provisioning && e == s.shared.epoch && s.Snap().config.disabled &&
       s.ProfileReadable(readOk) && s.disk.profile.value.disabled
    then s.(writer := WifiUpdate(s.disk.profile.value, false))
    else s
  }

  function WifiStep(s: Sys, l: Label): Sys
    requires s.writer.WifiUpdate?
  {
    match l
    case ClearForWifi(readOk, wr) =>
      if s.writer.cleared then s else
      var (slot, e) := Clear(s.disk.auto, readOk, wr);
      if e == NoError then s.SetAuto(slot).(writer := s.writer.(cleared := true)) else s.SetAuto(slot).FailWrite()
    case SaveWifi(wr) =>
      if !s.writer.cleared then s
      else if wr.Seen() then s.SetProfile(s.writer.p, wr).(writer := Free)
      else s.SetProfile(s.writer.p, wr).FailWrite()
    case _ => s
  }

  function StartProvisionStep(s: Sys, next: Config, networkBusy: bool): Sys
    requires s.writer.Free?
  {
    if s.provisioning && !networkBusy && s.Snap().config.disabled &&
       next.Valid() && next.disabled && !next.commissioned && next.dryRun
    then s.(writer := Provisioning(next, 0))
    else s
  }

  /** The five ordered writes of `provision_profile`; the third is the token record. */
  function ProvisionEffect(s: Sys, w: Write): Sys
    requires s.writer.Provisioning?
  {
    match s.writer.step
    case 0 => s.(disk := s.disk.(marked := s.disk.marked || w.Lands()))
    case 1 => s.SetAuto(Put(s.disk.auto, EMPTY, w))
    case 3 => s.SetProfile(s.writer.next, w)
    case 4 => s.(disk := s.disk.(marked := s.disk.marked && !w.Lands()))
    case _ => s
  }

  function ProvisionWrite(s: Sys, w: Write): Sys
    requires s.writer.Provisioning?
  {
    var t := ProvisionEffect(s, w);
    if !w.Seen() then t.FailWrite()
    else if s.writer.step >= 4 then t.(writer := Free)
    else t.(writer := s.writer.(step := s.writer.step + 1))
  }

  // ----- The decision-storage worker -----

  predicate NothingToStore(s: Sys) {
    var now := s.Snap();
    || !now.ready || s.provisioning || !now.config.Holds()
    || (!s.faulted && !now.inhibited && now.autoSavedGen == s.shared.epoch && now.autoSaved == now.decision.autoState)
  }

  function Found(s: Sys): Request {
    Request(s.shared.epoch, s.Snap().config, s.Snap().decision.autoState, s.Snap().decision.lastSourceS)
  }

  function AskStep(s: Sys): Sys { if NothingToStore(s) then s else s.(worker := Asking(Found(s))) }

  /** `persist_auto_state` has taken the mutex and looks again. */
  function CheckStep(s: Sys): Sys
    requires s.worker.Asking? && s.writer.Free?
  {
    var now, r := s.Snap(), s.worker.req;
    if s.provisioning || !now.ready || s.shared.epoch != r.gen || now.decision.autoState != r.state
    then s.(worker := Resting)
    else if s.faulted || now.inhibited || now.config.disabled
    then s.(worker := Writing, writer := Storing(r, ToEmpty, None))
    else s.(worker := Writing, writer := Storing(r, ToKeep, s.decidedBy))
  }

  function Persist(s: Sys, readOk: bool, profileOk: bool, w: Write): (Slot, Error)
    requires s.writer.Storing?
  {
    var r := s.writer.req;
    if s.writer.act == ToEmpty then Clear(s.disk.auto, readOk, w)
    else if s.ProfileReadable(profileOk) && s.disk.profile.value == r.config
    then Save(s.disk.auto, readOk, r.config, r.state, r.source, w)
    else (s.disk.auto, Storage)
  }

  function WriteStep(s: Sys, readOk: bool, profileOk: bool, w: Write): Sys
    requires s.writer.Storing?
  {
    var (slot, e) := Persist(s, readOk, profileOk, w);
    if e == NoError then s.SetAuto(slot).(writer := Free, worker := Acking(s.writer.req, s.writer.act))
    else s.SetAuto(slot).FailWrite().(worker := Resting)
  }

  function AckStep(s: Sys): Sys
    requires s.worker.Acking?
  {
    var r, sh := s.worker.req, s.shared;
    var counts := sh.AckCounts(r.gen, r.state, s.faulted, s.provisioning);
    s.(shared := sh.AutoCommitAck(r.gen, r.state, s.faulted, s.provisioning), worker := Resting,
       drift := if s.worker.act == ToKeep
                then if counts then InStep else if sh.epoch == r.gen then Adrift else s.drift
                else if counts && r.state != Unknown then Adrift else s.drift)
  }

  // ----- Boot -----

  function LoadProfileStep(s: Sys, readOk: bool): Sys {
    if s.ProfileReadable(readOk) then s.(setup := if s.faulted then Done else LoadedProfile(s.disk.profile.value))
    else if readOk && !s.disk.marked && s.disk.profile == None then s.(setup := Done)
    else s.Fault().(setup := Done)
  }

  function RecoverStep(s: Sys, allow: bool, tokens: Tokens, readOk: bool, clearOk: bool, w: Write): Sys
    requires s.setup.LoadedProfile?
  {
    var (slot, l) := Recover(s.disk.auto, readOk, s.setup.c, allow, tokens, clearOk, w);
    var t := s.SetAuto(slot).(setup := Recovered(s.setup.c, l.state, l.source));
    if l.error == NoError then t else t.Fault()
  }

  function FinishStep(s: Sys): Sys
    requires s.setup.Recovered?
  {
    s.(setup := Done,
       shared := if s.faulted then s.shared else s.shared.Configure(s.setup.c, s.seed, s.setup.state, s.setup.source).0)
  }

  function Seeded(seed: nat): nat { if Epochs.IsEpoch(seed) then seed else 1 }

  function CrashStep(s: Sys, seed: nat, now: int): Sys {
    Sys(AtBoot(Seeded(seed)), false, false, Boot(now), Top, false, Free, Resting, map[], Start, s.disk,
        Seeded(seed), 0, s.acked, s.acked, s.root, None, InStep)
  }

  /** The first boot, with whatever profile the device was given and no saved decision. */
  function Init(profile: Option<Config>, marked: bool, seed: nat, now: int): Sys {
    Sys(AtBoot(Seeded(seed)), false, false, Boot(now), Top, false, Free, Resting, map[], Start,
        Disk(profile, marked, Missing), Seeded(seed), 0, false, false, None, None, InStep)
  }

  // ----- Commands -----

  /** A command that took a new generation leaves its `change_config` call to be made. */
  function Issue(s: Sys, change: Change): Sys {
    s.(shared := s.shared.Inhibit(), changes := s.changes + 1,
       jobs := s.jobs[s.shared.Inhibit().epoch := change])
  }

  function Next(s: Sys, l: Label): Sys {
    match l
    case Inhibit => if s.CanIssue() then Issue(s, Disable).(off := true) else s
    case InhibitCurrent(expected, busy, change) =>
      if s.CanIssue() && change != Disable && s.shared.InhibitCurrent(expected, s.provisioning, busy).1
      then Issue(s, change).(off := false, acked := false) else s
    case BeginProvision(expected, busy) =>
      if s.CanIssue() && s.shared.BeginProvision(expected, busy).1
      then Issue(s, Disable).(provisioning := true, off := true) else s
    case Timed(secs, e, busy) => s.(shared := s.shared.Timed(secs, e, busy).0)
    case RaiseFault => s.Fault()
    case Take =>
      if !s.pc.Top? then s else
      var (sh, t) := s.shared.Take();
      s.(shared := sh, pc := Between(t), decidedBy := if t.apply then None else s.decidedBy,
         drift := if t.apply then InStep else s.drift)
    case Decide(env) => if s.pc.Between? then DecideStep(s, env) else s
    case Publish(busy, gpioOk) => if s.pc.Deciding? then PublishStep(s, busy, gpioOk) else s
    case StartChange(e, readOk) => if s.writer.Free? && e in s.jobs then StartChangeStep(s, e, readOk) else s
    case DropChange(e) => s.(jobs := s.jobs - {e})
    case StartWifi(e, readOk) => if s.writer.Free? then StartWifiStep(s, e, readOk) else s
    case StartProvision(next, nb) => if s.writer.Free? then StartProvisionStep(s, next, nb) else s
    case ProvisionStep(w) => if s.writer.Provisioning? then ProvisionWrite(s, w) else s
    case AskStore => if s.worker.Resting? && s.setup.Done? then AskStep(s) else s
    case CheckStore => if s.worker.Asking? && s.writer.Free? then CheckStep(s) else s
    case WriteStore(readOk, profileOk, w) => if s.writer.Storing? then WriteStep(s, readOk, profileOk, w) else s
    case AckStore => if s.worker.Acking? then AckStep(s) else s
    case LoadProfile(readOk) => if s.setup.Start? then LoadProfileStep(s, readOk) else s
    case RecoverDecision(allow, tokens, readOk, clearOk, w) =>
      if s.setup.LoadedProfile? && s.writer.Free? then RecoverStep(s, allow, tokens, readOk, clearOk, w) else s
    case FinishSetup => if s.setup.Recovered? then FinishStep(s) else s
    case Crash(seed, now) => CrashStep(s, seed, now)
    case _ => if s.writer.Changing? then ChangeStep(s, l) else if s.writer.WifiUpdate? then WifiStep(s, l) else s
  }

  function Run(s: Sys, ls: seq<Label>): Sys {
    if ls == [] then s else Next(Run(s, ls[..|ls| - 1]), ls[|ls| - 1])
  }
}
