/** The state main/app.cpp keeps under its spin lock, and what each critical section does to it. */
module SharedState {
  import opened Settings
  import opened PolicyModel
  import Epochs

  /** The control part of `Snapshot`; its generation is the current epoch. */
  datatype Snapshot = Snapshot(config: Config, decision: Decision, ready: bool, inhibited: bool,
                               autoSaved: AutoState, autoSavedGen: nat)

  /** What the control loop carries from its first critical section. */
  datatype Taken = Taken(off: bool, apply: bool, c: Config, epoch: nat, restored: AutoState, source: int,
                         override: bool, seconds: nat, timedEpoch: nat)

  datatype Shared = Shared(
    state: Snapshot, epoch: nat, forcedOff: bool, pendingConfig: bool, pendingTimed: bool,
    newConfig: Config, restored: AutoState, source: int, configEpoch: nat, timedEpoch: nat, seconds: nat)
  {
    predicate Matches(expected: nat) { expected != 0 && expected == epoch }

    function InhibitLocked(): Shared {
      this.(state := state.(inhibited := true, config := state.config.(disabled := true)),
            forcedOff := true, pendingConfig := false, pendingTimed := false)
    }

    function Inhibit(): Shared { this.(epoch := Epochs.Next(epoch)).InhibitLocked() }

    function InhibitCurrent(expected: nat, provisioning: bool, busy: bool): (Shared, bool) {
      var ok := !provisioning && !busy && Matches(expected);
      (if ok then Inhibit() else this, ok)
    }

    function BeginProvision(expected: nat, busy: bool): (Shared, bool) {
      var ok := !busy && (expected != 0 ==> Matches(expected));
      (if ok then Inhibit() else this, ok)
    }

    function Configure(c: Config, e: nat, from: AutoState, src: int): (Shared, bool) {
      var ok := Matches(e);
      (if ok then this.(newConfig := c, configEpoch := e, pendingConfig := true, restored := from, source := src)
       else this, ok)
    }

    /** An acknowledgement is taken: `committed` is the decision just written, `gen` the generation it
        was read under. */
    predicate AckCounts(gen: nat, committed: AutoState, faulted: bool, provisioning: bool) {
      !faulted && !provisioning && !state.inhibited && Matches(gen) && state.decision.autoState == committed
    }

    function AutoCommitAck(gen: nat, committed: AutoState, faulted: bool, provisioning: bool): Shared {
      if AckCounts(gen, committed, faulted, provisioning)
      then this.(state := state.(autoSaved := committed, autoSavedGen := gen))
      else this
    }

    function Timed(secs: nat, e: nat, busy: bool): (Shared, bool) {
      var ok := !busy && state.ready && !state.inhibited && !state.config.disabled && state.config.commissioned
                && Matches(e) && 0 < secs <= MAX_TIMED_SECONDS;
      (if ok then this.(seconds := secs, timedEpoch := e, pendingTimed := true) else this, ok)
    }

    predicate Applies() { pendingConfig && configEpoch == epoch }

    /** The first critical section of a control iteration. */
    function Take(): (Shared, Taken) {
      var t := Taken(forcedOff, Applies(), newConfig, epoch, restored, source, pendingTimed, seconds, timedEpoch);
      var s := this.(forcedOff := false, pendingConfig := false, pendingTimed := false);
      (if !t.apply then s
       else s.(state := Snapshot(newConfig, EMPTY_DECISION.(autoState := restored), true, false, restored, epoch)),
       t)
    }

    /** The second critical section: `masked` is fault, provisioning or a firmware update. */
    function Publish(d: Decision, gen: nat, masked: bool, gpioOk: bool): Shared {
      var on := d.commanded && !state.inhibited && Matches(gen) && !masked && gpioOk;
      this.(state := state.(decision := d.(commanded := on)))
    }
  }

  function AtBoot(seed: nat): Shared {
    Shared(Snapshot(FACTORY, EMPTY_DECISION, false, true, Unknown, 0), if seed == 0 then 1 else seed,
           false, false, false, FACTORY, Unknown, 0, 0, 0, 0)
  }

  /** The variables behind the lock, and the functions that take it. */
  class Control {
    var state: Snapshot
    var epoch: nat
    var forcedOff: bool
    var pendingConfig: bool
    var pendingTimed: bool
    var newConfig: Config
    var restored: AutoState
    var source: int
    var configEpoch: nat
    var timedEpoch: nat
    var seconds: nat

    function S(): Shared
      reads this
    {
      Shared(state, epoch, forcedOff, pendingConfig, pendingTimed, newConfig, restored, source,
             configEpoch, timedEpoch, seconds)
    }

    constructor (seed: nat)
      ensures S() == AtBoot(seed)
    {
      state := Snapshot(FACTORY, EMPTY_DECISION, false, true, Unknown, 0);
      epoch := if seed == 0 then 1 else seed;
      forcedOff, pendingConfig, pendingTimed := false, false, false;
      newConfig, restored, source := FACTORY, Unknown, 0;
      configEpoch, timedEpoch, seconds := 0, 0, 0;
    }

    method InhibitLocked()
      modifies this
      ensures S() == old(S()).InhibitLocked()
    {
      state := state.(inhibited := true, config := state.config.(disabled := true));
      forcedOff := true;
      pendingConfig := false;
      pendingTimed := false;
    }

    method Inhibit() returns (acquired: nat)
      modifies this
      ensures S() == old(S()).Inhibit() && acquired == epoch
    {
      epoch := Epochs.Next(epoch);
      acquired := epoch;
      InhibitLocked();
    }

    method InhibitCurrent(expected: nat, provisioning: bool, busy: bool) returns (ok: bool, acquired: nat)
      modifies this
      ensures (S(), ok) == old(S()).InhibitCurrent(expected, provisioning, busy)
      ensures ok ==> acquired == epoch
    {
      acquired := 0;
      ok := !provisioning && !busy && S().Matches(expected);
      if ok {
        acquired := Inhibit();
      }
    }

    method BeginProvision(expected: nat, busy: bool) returns (ok: bool, acquired: nat)
      modifies this
      ensures (S(), ok) == old(S()).BeginProvision(expected, busy)
      ensures ok ==> acquired == epoch
    {
      acquired := 0;
      ok := !busy && (expected != 0 ==> S().Matches(expected));
      if ok {
        acquired := Inhibit();
      }
    }

    method Configure(c: Config, e: nat, from: AutoState, src: int) returns (ok: bool)
      modifies this
      ensures (S(), ok) == old(S()).Configure(c, e, from, src)
    {
      ok := S().Matches(e);
      if ok {
        newConfig := c;
        configEpoch := e;
        pendingConfig := true;
        restored := from;
        source := src;
      }
    }

    method AutoCommitAck(gen: nat, committed: AutoState, faulted: bool, provisioning: bool)
      modifies this
      ensures S() == old(S()).AutoCommitAck(gen, committed, faulted, provisioning)
    {
      if !faulted && !provisioning && !state.inhibited && S().Matches(gen) && state.decision.autoState == committed {
        state := state.(autoSaved := committed);
        state := state.(autoSavedGen := gen);
      }
    }

    method Timed(secs: nat, e: nat, busy: bool) returns (ok: bool)
      modifies this
      ensures (S(), ok) == old(S()).Timed(secs, e, busy)
    {
      ok := !busy && state.ready && !state.inhibited && !state.config.disabled && state.config.commissioned
            && S().Matches(e) && 0 < secs <= MAX_TIMED_SECONDS;
      if ok {
        seconds := secs;
        timedEpoch := e;
        pendingTimed := true;
      }
    }

    method Take() returns (t: Taken)
      modifies this
      ensures (S(), t) == old(S()).Take()
    {
      t := Taken(forcedOff, S().Applies(), newConfig, epoch, restored, source, pendingTimed, seconds, timedEpoch);
      forcedOff := false;
      pendingConfig := false;
      pendingTimed := false;
      if t.apply {
        state := state.(config := t.c, ready := true, inhibited := false);
        state := state.(decision := EMPTY_DECISION.(autoState := t.restored));
        state := state.(autoSaved := t.restored, autoSavedGen := t.epoch);
      }
    }

    method Publish(d: Decision, gen: nat, masked: bool, gpioOk: bool)
      modifies this
      ensures S() == old(S()).Publish(d, gen, masked, gpioOk)
    {
      var out := d;
      if state.inhibited || !S().Matches(gen) || masked {
        out := out.(commanded := false);
      }
      if !gpioOk {
        out := out.(commanded := false);
      }
      state := state.(decision := out);
    }
  }
}
