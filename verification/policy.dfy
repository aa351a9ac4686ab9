/** `Policy` of components/controller/policy.cpp: the in-RAM authorisation state of the one control
    task. `State` and its members say what each operation computes; the class `Policy` is the
    object the program keeps, field by field. */
module PolicyModel {
  import opened Settings

  datatype Vehicle = UnknownVehicle | Online | Asleep | Offline
  datatype Evidence = NoEvidence | Location | AsleepReply | Revoked
  datatype Reason = Uncommissioned | Disabled | Faulted | NoAuthorization | HomeLease | Timed |
                    OffDwell | DryRun | HomeRetained | HomePending | FirmwareUpdate

  datatype Observation = Observation(
    generation: nat, request: nat, vin: string, kind: Evidence, vehicle: Vehicle,
    lat: Coord, lon: Coord, sourceS: int, basis: nat, qualityOk: bool)

  datatype Decision = Decision(
    autoHome: bool, desired: bool, commanded: bool, timed: bool, retained: bool, restored: bool,
    autoState: AutoState, leaseLeft: int, overrideLeft: int, reason: Reason,
    distance: real, lastSourceS: int)

  const EMPTY_DECISION :=
    Decision(false, false, false, false, false, false, Unknown, 0, 0, NoAuthorization, -1.0, 0)

  const MAX_TIMED_SECONDS := 28800

  function Max(a: int, b: int): int { if a < b then b else a }

  function Min(a: int, b: int): int { if a < b then a else b }

  function AgeMs(o: Observation, utc: int): int { Max(0, utc - o.sourceS) * 1000 }

  /** The fields of `Policy` that decide whether an observation is admitted. None of them is a
      time, and nothing but `configure`, `restore`, `off`, `fault` and an observation changes them. */
  datatype Gate = Gate(config: Config, generation: nat, configured: bool, fault: bool,
                       lastRequest: nat, lastSource: int)
  {
    predicate Admits(o: Observation) {
      && configured && !fault && !config.disabled && o.generation == generation
      && o.request != 0 && o.request > lastRequest
      && |o.vin| <= 17 && o.vin == config.vin
    }

    predicate UsableFix(o: Observation, utc: int) {
      && o.kind == Location && o.basis == config.Basis()
      && (o.basis == VEHICLE_REPORT ==> o.vehicle == Online)
      && o.qualityOk && InRange(o.lat, 90.0) && InRange(o.lon, 180.0)
      && EARLIEST_SOURCE <= o.sourceS <= LATEST_SOURCE
      && o.sourceS > lastSource && o.sourceS <= utc + config.futureS
      && utc - o.sourceS <= config.maxAgeS
    }

    predicate Restorable(state: AutoState) {
      configured && !fault && config.commissioned && !config.disabled && config.Holds() && state != Unknown
    }
  }

  datatype State = State(
    gate: Gate, lease: int, ceiling: int, override: int, offSince: int,
    home: bool, commanded: bool, restored: bool, autoState: AutoState, distance: real)
  {
    function Invalidate(): State {
      this.(home := false, lease := 0, ceiling := 0, autoState := Unknown, restored := false)
    }

    function Expire(now: int): State {
      var s := if home && now >= lease && gate.config.Expires() then Invalidate() else this;
      if s.override != 0 && now >= s.override then s.(override := 0) else s
    }

    function Restore(state: AutoState, source: int): State {
      if !gate.Restorable(state) then this
      else this.(autoState := state, home := state == Home, restored := true, gate := gate.(lastSource := source))
    }

    /** The output is withdrawn at `now`; a later ON must wait a dwell from here. */
    function Release(now: int): State {
      this.(offSince := if commanded then now else offSince, commanded := false)
    }

    function Configure(c: Config, gen: nat, now: int): State {
      var g := Gate(c, gen, c.Valid(), gate.fault || !c.Valid(), 0, 0);
      this.(gate := g).Invalidate().(override := 0, distance := -1.0).Release(now)
    }

    function Off(gen: nat, now: int): State {
      this.(gate := gate.(generation := gen, config := gate.config.(disabled := true)))
        .Invalidate().(override := 0).Release(now)
    }

    function ClockJump(): State {
      if gate.config.Holds() then this.(lease := 0, ceiling := 0) else Invalidate()
    }

    function TimedOn(seconds: nat, now: int): (State, bool) {
      var s := Expire(now);
      if !gate.configured || gate.fault || !gate.config.commissioned || gate.config.disabled ||
         seconds == 0 || seconds > MAX_TIMED_SECONDS
      then (s, false)
      else (s.(override := now + seconds * 1000), true)
    }

    function Observe(o: Observation, dist: real, now: int, utc: int, clockValid: bool): State {
      var s := Expire(now);
      if !gate.Admits(o) then s else
      var s := s.(gate := gate.(lastRequest := o.request));
      if o.kind == Revoked then s.Invalidate()
      else if !clockValid then s
      else if o.kind == AsleepReply then
        if s.home && now < s.lease && now < s.ceiling
        then s.(lease := Min(now + gate.config.leaseS * 1000, s.ceiling))
        else s
      else if !gate.UsableFix(o, utc) then s
      else s.Fix(o, dist, now, utc)
    }

    function Fix(o: Observation, dist: real, now: int, utc: int): State {
      var c := gate.config;
      var s := this.(gate := gate.(lastSource := o.sourceS), restored := false, distance := dist);
      if dist >= c.disableM as real then s.Invalidate().(autoState := Away)
      else
        var s := if dist <= c.enableM as real then s.(home := true, autoState := Home) else s;
        if !s.home then s
        else s.(lease := now + c.leaseS * 1000 - AgeMs(o, utc), ceiling := now + c.sleepS * 1000 - AgeMs(o, utc))
    }

    function Decide(now: int, commitReady: bool, inhibited: bool): Decision {
      var c := gate.config;
      var autoHome := home && (now < lease || c.Holds());
      var timed := override > now;
      var d := EMPTY_DECISION.(
        autoHome := autoHome, retained := autoHome && now >= lease, restored := restored,
        autoState := autoState, timed := timed,
        leaseLeft := if autoHome && now < lease then lease - now else 0,
        overrideLeft := if timed then override - now else 0,
        distance := distance, lastSourceS := gate.lastSource);
      if gate.fault || !gate.configured then d.(reason := Faulted)
      else if !c.commissioned then d.(reason := Uncommissioned)
      else if c.disabled then d.(reason := Disabled)
      else if !(autoHome || timed) then d.(reason := NoAuthorization)
      else
        var d := d.(desired := true,
                    reason := if timed then Timed else if d.retained then HomeRetained else HomeLease);
        if inhibited then d.(reason := FirmwareUpdate)
        else if !timed && !commitReady then d.(reason := HomePending)
        else if !commanded && now - offSince < c.dwellS * 1000 then d.(reason := OffDwell)
        else if c.dryRun then d.(reason := DryRun)
        else d.(commanded := true)
    }

    function Tick(now: int, commitReady: bool, inhibited: bool): (State, Decision) {
      var s := Expire(now);
      var d := s.Decide(now, commitReady, inhibited);
      (s.(offSince := if s.commanded && !d.commanded then now else s.offSince, commanded := d.commanded), d)
    }

    function Fault(now: int): State {
      this.(gate := gate.(fault := true)).Invalidate().(override := 0).Tick(now, true, false).0
    }
  }

  const FACTORY_GATE := Gate(FACTORY, 0, false, false, 0, 0)

  function Boot(now: int): State {
    State(FACTORY_GATE, 0, 0, 0, now, false, false, false, Unknown, -1.0)
  }

  /** The object owned by the control task. */
  class Policy {
    var gate: Gate
    var lease: int
    var ceiling: int
    var override: int
    var offSince: int
    var home: bool
    var commanded: bool
    var restored: bool
    var autoState: AutoState
    var distance: real

    function S(): State
      reads this
    {
      State(gate, lease, ceiling, override, offSince, home, commanded, restored, autoState, distance)
    }

    constructor (boot: int)
      ensures S() == Boot(boot)
    {
      gate := FACTORY_GATE;
      lease, ceiling, override, offSince := 0, 0, 0, boot;
      home, commanded, restored := false, false, false;
      autoState, distance := Unknown, -1.0;
    }

    method Invalidate()
      modifies this
      ensures S() == old(S()).Invalidate()
    {
      home := false;
      lease := 0;
      ceiling := 0;
      autoState := Unknown;
      restored := false;
    }

    method Expire(now: int)
      modifies this
      ensures S() == old(S()).Expire(now)
    {
      if home && now >= lease && gate.config.Expires() {
        Invalidate();
      }
      if override != 0 && now >= override {
        override := 0;
      }
    }

    method Release(now: int)
      modifies this
      ensures S() == old(S()).Release(now)
    {
      if commanded {
        offSince := now;
      }
      commanded := false;
    }

    method Restore(state: AutoState, source: int)
      modifies this
      ensures S() == old(S()).Restore(state, source)
    {
      if !gate.configured || gate.fault || !gate.config.commissioned || gate.config.disabled ||
         !gate.config.Holds() || (state != Home && state != Away) {
        return;
      }
      autoState := state;
      home := state == Home;
      restored := true;
      gate := gate.(lastSource := source);
    }

    method Configure(c: Config, gen: nat, now: int)
      modifies this
      ensures S() == old(S()).Configure(c, gen, now)
    {
      gate := gate.(config := c, generation := gen, configured := c.Valid());
      Invalidate();
      override := 0;
      gate := gate.(lastSource := 0, lastRequest := 0);
      distance := -1.0;
      Release(now);
      if !gate.configured {
        gate := gate.(fault := true);
      }
    }

    method Off(gen: nat, now: int)
      modifies this
      ensures S() == old(S()).Off(gen, now)
    {
      gate := gate.(generation := gen, config := gate.config.(disabled := true));
      Invalidate();
      override := 0;
      Release(now);
    }

    method Fault(now: int)
      modifies this
      ensures S() == old(S()).Fault(now)
    {
      gate := gate.(fault := true);
      Invalidate();
      override := 0;
      var _ := Tick(now, true, false);
    }

    method ClockJump()
      modifies this
      ensures S() == old(S()).ClockJump()
    {
      if gate.config.Holds() {
        lease := 0;
        ceiling := 0;
      } else {
        Invalidate();
      }
    }

    method TimedOn(seconds: nat, now: int) returns (ok: bool)
      modifies this
      ensures (S(), ok) == old(S()).TimedOn(seconds, now)
    {
      Expire(now);
      if !gate.configured || gate.fault || !gate.config.commissioned || gate.config.disabled ||
         seconds == 0 || seconds > MAX_TIMED_SECONDS {
        return false;
      }
      override := now + seconds * 1000;
      return true;
    }

    method Observe(o: Observation, dist: real, now: int, utc: int, clockValid: bool)
      modifies this
      ensures S() == old(S()).Observe(o, dist, now, utc, clockValid)
    {
      Expire(now);
      if !gate.Admits(o) {
        return;
      }
      gate := gate.(lastRequest := o.request);
      if o.kind == Revoked {
        Invalidate();
        return;
      }
      if !clockValid {
        return;
      }
      if o.kind == AsleepReply {
        if home && now < lease && now < ceiling {
          lease := Min(now + gate.config.leaseS * 1000, ceiling);
        }
        return;
      }
      if !gate.UsableFix(o, utc) {
        return;
      }
      TakeFix(o, dist, now, utc);
    }

    method TakeFix(o: Observation, dist: real, now: int, utc: int)
      modifies this
      ensures S() == old(S()).Fix(o, dist, now, utc)
    {
      gate := gate.(lastSource := o.sourceS);
      restored := false;
      distance := dist;
      if distance >= gate.config.disableM as real {
        Invalidate();
        autoState := Away;
        return;
      }
      if distance <= gate.config.enableM as real {
        home := true;
        autoState := Home;
      }
      if !home {
        return;
      }
      lease := now + gate.config.leaseS * 1000 - AgeMs(o, utc);
      ceiling := now + gate.config.sleepS * 1000 - AgeMs(o, utc);
    }

    method Tick(now: int, commitReady: bool, inhibited: bool) returns (d: Decision)
      modifies this
      ensures (S(), d) == old(S()).Tick(now, commitReady, inhibited)
    {
      Expire(now);
      d := S().Decide(now, commitReady, inhibited);
      if commanded && !d.commanded {
        offSince := now;
      }
      commanded := d.commanded;
    }
  }
}
